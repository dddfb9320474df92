/**
 * The note handlers of routes/notes.js: list, read, create, update and
 * delete, each for the authenticated caller whose id is `caller`.
 */
module Notes {
  import opened Wrappers
  import opened Json
  import opened ObjectIds
  import opened Records
  import opened Casting
  import opened Listing
  import opened Store
  import opened Http

  // ---------------------------------------------------------------------
  // GET /api/notes
  // ---------------------------------------------------------------------

  /** The query string: `searchTerm`, `folderId` and `tagId`, each possibly absent. */
  datatype NoteQuery = NoteQuery(searchTerm: Option<string>, folderId: Option<string>, tagId: Option<string>)

  /** A query parameter used as a condition: present and not empty. */
  predicate Given(p: Option<string>)
  {
    p.Some? && p.value != ""
  }

  /** The filter object the handler builds; the ids are still the strings of the query. */
  datatype Filter = Filter(title: Option<string>, folderId: Option<string>, tags: Option<string>, userId: Oid)

  /** The filter object: each query parameter the query gives becomes a condition, and the caller is always one. */
  function BuildFilter(q: NoteQuery, caller: Oid): (f: Filter)
    ensures f.userId == caller
    ensures f.title.Some? <==> Given(q.searchTerm)
    ensures f.folderId.Some? <==> Given(q.folderId)
    ensures f.tags.Some? <==> Given(q.tagId)
    ensures f.title.Some? ==> f.title == q.searchTerm && f.title.value != ""
    ensures f.folderId.Some? ==> f.folderId == q.folderId && f.folderId.value != ""
    ensures f.tags.Some? ==> f.tags == q.tagId && f.tags.value != ""
  {
    Filter(if Given(q.searchTerm) then q.searchTerm else None,
           if Given(q.folderId) then q.folderId else None,
           if Given(q.tagId) then q.tagId else None,
           caller)
  }

  /** The store casts the filter's paths in the order they were set: `folderId`, then `tags`. */
  function CastFilter(f: Filter): (r: Result<NoteCriteria, StoreError>)
    ensures r.Success? <==> (f.folderId.Some? ==> IsValidId(f.folderId.value)) && (f.tags.Some? ==> IsValidId(f.tags.value))
    ensures f.folderId.Some? && !IsValidId(f.folderId.value) ==> r == Failure(CastFailed("folderId"))
    ensures r.Failure? && !(f.folderId.Some? && !IsValidId(f.folderId.value)) ==> r == Failure(CastFailed("tags"))
    ensures r.Success? ==> r.value.title == f.title && r.value.userId == Some(f.userId)
    ensures r.Success? ==> (r.value.folderId.Some? <==> f.folderId.Some?) && (r.value.tag.Some? <==> f.tags.Some?)
    ensures r.Success? && f.folderId.Some? ==> r.value.folderId.value == ToOid(f.folderId.value)
    ensures r.Success? && f.tags.Some? ==> r.value.tag.value == ToOid(f.tags.value)
  {
    if f.folderId.Some? && !IsValidId(f.folderId.value) then Failure(CastFailed("folderId"))
    else if f.tags.Some? && !IsValidId(f.tags.value) then Failure(CastFailed("tags"))
    else Success(NoteCriteria(
      f.title,
      if f.folderId.Some? then Some(ToOid(f.folderId.value)) else None,
      if f.tags.Some? then Some(ToOid(f.tags.value)) else None,
      Some(f.userId)))
  }

  /** Every id the query gives is a valid id. */
  predicate QueryIdsValid(q: NoteQuery)
  {
    (Given(q.folderId) ==> IsValidId(q.folderId.value))
    && (Given(q.tagId) ==> IsValidId(q.tagId.value))
  }

  /**
   * The notes the listing is meant to show, stated on the query itself: the
   * caller's notes whose title matches the search term, that sit in the
   * folder and that carry the tag, for each of these the query gives.
   */
  predicate Listed(q: NoteQuery, caller: Oid, n: Note, titleMatches: (string, string) -> bool)
  {
    n.userId == Some(caller)
    && (Given(q.searchTerm) ==> n.title.Some? && titleMatches(q.searchTerm.value, n.title.value))
    && (Given(q.folderId) ==> IsValidId(q.folderId.value) && n.folderId == Some(ToOid(q.folderId.value)))
    && (Given(q.tagId) ==> IsValidId(q.tagId.value) && ToOid(q.tagId.value) in n.tags)
  }

  /** The filter the handler builds selects exactly the listed notes, and is refused exactly when an id is invalid. */
  lemma FilterSelectsListed(q: NoteQuery, caller: Oid, titleMatches: (string, string) -> bool)
    ensures CastFilter(BuildFilter(q, caller)).Success? <==> QueryIdsValid(q)
    ensures Given(q.folderId) && !IsValidId(q.folderId.value)
      ==> CastFilter(BuildFilter(q, caller)) == Failure(CastFailed("folderId"))
    ensures (Given(q.folderId) ==> IsValidId(q.folderId.value)) && Given(q.tagId) && !IsValidId(q.tagId.value)
      ==> CastFilter(BuildFilter(q, caller)) == Failure(CastFailed("tags"))
    ensures CastFilter(BuildFilter(q, caller)).Success? ==>
      forall n :: NoteMatches(CastFilter(BuildFilter(q, caller)).value, n, titleMatches) <==> Listed(q, caller, n, titleMatches)
  {
  }

  /** GET /api/notes: the caller's matching notes, most recently updated first. */
  method ListNotes(store: Store, q: NoteQuery, caller: Oid, titleMatches: (string, string) -> bool)
    returns (reply: Reply)
    ensures Given(q.folderId) && !IsValidId(q.folderId.value)
      ==> reply == Next(StoreFailure(CastFailed("folderId")))
    ensures (Given(q.folderId) ==> IsValidId(q.folderId.value)) && Given(q.tagId) && !IsValidId(q.tagId.value)
      ==> reply == Next(StoreFailure(CastFailed("tags")))
    ensures QueryIdsValid(q) ==> reply.Json? && reply.status == 200 && reply.location.None? && reply.payload.NoteRows?
    ensures QueryIdsValid(q) && reply.Json? && reply.payload.NoteRows? ==>
      (Selects(reply.payload.notes, store.notes, n => Listed(q, caller, n, titleMatches))
       && DistinctIds(reply.payload.notes) && SortedBy(reply.payload.notes, NoteRecencyOrder))
  {
    FilterSelectsListed(q, caller, titleMatches);
    var criteria := CastFilter(BuildFilter(q, caller));
    if criteria.Failure? {
      return Next(StoreFailure(criteria.error));
    }
    var rows := store.FindNotes(criteria.value, titleMatches);
    SelectsSameFilter(rows, store.notes, n => NoteMatches(criteria.value, n, titleMatches), n => Listed(q, caller, n, titleMatches));
    reply := Json(200, None, NoteRows(rows));
  }

  // ---------------------------------------------------------------------
  // GET /api/notes/:id
  // ---------------------------------------------------------------------

  const InvalidId := BadRequest("The `id` is not valid")

  /** GET /api/notes/:id: the caller's note with that id; another user's note is not found. */
  method GetNote(store: Store, id: string, caller: Oid) returns (reply: Reply)
    ensures !IsValidId(id) ==> reply == Next(InvalidId)
    ensures IsValidId(id) && OwnedBy(store.notes, ToOid(id), caller)
      ==> reply == Json(200, None, NoteJson(ToOid(id), store.notes[ToOid(id)]))
    ensures IsValidId(id) && !OwnedBy(store.notes, ToOid(id), caller) ==> reply == NextRoute
  {
    if !IsValidId(id) {
      return Next(InvalidId);
    }
    var found := store.FindOwnedNote(ToOid(id), caller);
    if found.Some? {
      reply := Json(200, None, NoteJson(ToOid(id), found.value));
    } else {
      reply := NextRoute;
    }
  }

  // ---------------------------------------------------------------------
  // POST /api/notes
  // ---------------------------------------------------------------------

  /** `tags` as destructured with the default `[]`, which applies only when the body has no `tags`. */
  function TagsOf(body: Body): (v: Value)
    ensures "tags" in body ==> v == body["tags"]
    ensures !Truthy(v) ==> "tags" in body && v == body["tags"]
    ensures v.Arr? && "tags" !in body ==> v.items == []
  {
    if "tags" in body then body["tags"] else Arr([])
  }

  /** `tags.filter(tag => !isValid(tag))`: the elements that are not valid ids, in order. */
  function BadIds(items: seq<Value>): (r: seq<Value>)
    ensures forall v :: v in r <==> v in items && !IsValidIdValue(v)
    ensures |r| == 0 <==> forall i :: 0 <= i < |items| ==> IsValidIdValue(items[i])
  {
    if items == [] then []
    else
      assert forall v :: v in items <==> v == items[0] || v in items[1..];
      (if IsValidIdValue(items[0]) then [] else [items[0]]) + BadIds(items[1..])
  }

  /** Every element of an array value is a valid id. */
  predicate AllValidIds(v: Value)
  {
    v.Arr? && forall i :: 0 <= i < |v.items| ==> IsValidIdValue(v.items[i])
  }

  const MissingTitle := BadRequest("Missing `title` in request body")
  const InvalidFolderId := BadRequest("The `folderId` is not valid")
  const InvalidTags := BadRequest("The `tags` array contains an invalid `id`")
  /** `tags.filter` on a truthy value that is not an array throws a TypeError. */
  const TagsNotArray := RuntimeError("tags.filter is not a function")

  /** The folder check of both POST and PUT: a truthy `folderId` must be a valid id. */
  predicate FolderIdPasses(body: Body)
  {
    TruthyField(body, "folderId") ==> IsValidIdValue(body["folderId"])
  }

  /**
   * The checks before the insert, in order: a title, a valid `folderId`
   * when one is given, a valid caller id when a folder is given, and, when
   * `tags` is truthy, an array of valid ids (on anything else `tags.filter`
   * throws). The caller id is a stored id, so its check never fails.
   */
  function CreateRejection(body: Body, caller: Oid): (r: Option<Reply>)
    ensures r.None? <==>
      TruthyField(body, "title") && FolderIdPasses(body) && (Truthy(TagsOf(body)) ==> AllValidIds(TagsOf(body)))
    ensures !TruthyField(body, "title") ==> r == Some(Next(MissingTitle))
    ensures TruthyField(body, "title") && !FolderIdPasses(body) ==> r == Some(Next(InvalidFolderId))
    ensures TruthyField(body, "title") && FolderIdPasses(body) && Truthy(TagsOf(body)) && !TagsOf(body).Arr?
      ==> r == Some(Next(TagsNotArray))
    ensures TruthyField(body, "title") && FolderIdPasses(body) && TagsOf(body).Arr? && !AllValidIds(TagsOf(body))
      ==> r == Some(Next(InvalidTags))
  {
    CanonicalRoundTrip(caller);
    var tags := TagsOf(body);
    if !TruthyField(body, "title") then Some(Next(MissingTitle))
    else if TruthyField(body, "folderId") && !IsValidIdValue(body["folderId"]) then Some(Next(InvalidFolderId))
    else if TruthyField(body, "folderId") && !IsValidId(caller) then Some(Next(BadRequest("The `userId` is not valid")))
    else if Truthy(tags) && !tags.Arr? then Some(Next(TagsNotArray))
    else if Truthy(tags) && |BadIds(tags.items)| > 0 then Some(Next(InvalidTags))
    else None
  }

  /** A text path of the body as the store casts it; an absent key sets nothing. */
  function TextField(body: Body, field: string): Result<Option<string>, StoreError>
  {
    if field in body then CastText(body[field], field) else Success(None)
  }

  /** An ObjectId path of the body as the store casts it; an absent key sets nothing. */
  function OidField(body: Body, field: string): Result<Option<Oid>, StoreError>
  {
    if field in body then CastOid(body[field], field) else Success(None)
  }

  /** `Note.create({title, content, folderId, tags, userId})`: the document after casting, owned by the caller. */
  function DraftNote(body: Body, caller: Oid, now: int): (r: Result<Note, StoreError>)
    ensures r.Success? <==>
      TextField(body, "title").Success? && TextField(body, "content").Success?
      && OidField(body, "folderId").Success? && CastOidList(TagsOf(body), "tags").Success?
    ensures r.Failure? ==> r.error.CastFailed? && (r.error.path in body || r.error.path == "tags")
    ensures r.Success? ==>
      (r.value.title == TextField(body, "title").value
       && r.value.content == TextField(body, "content").value
       && r.value.folderId == OidField(body, "folderId").value
       && r.value.tags == CastOidList(TagsOf(body), "tags").value)
    ensures r.Success? ==> r.value.userId == Some(caller) && r.value.createdAt == now && r.value.updatedAt == now
    ensures r.Success? && TruthyField(body, "title") ==> r.value.title.Some? && r.value.title.value != ""
  {
    var title := TextField(body, "title");
    var content := TextField(body, "content");
    var folderId := OidField(body, "folderId");
    var tags := CastOidList(TagsOf(body), "tags");
    if title.Failure? then Failure(title.error)
    else if content.Failure? then Failure(content.error)
    else if folderId.Failure? then Failure(folderId.error)
    else if tags.Failure? then Failure(tags.error)
    else Success(Note(title.value, content.value, folderId.value, tags.value, Some(caller), now, now))
  }

  /** The value of an id path that is absent, `null` or a valid id string. */
  predicate IdStringOrNull(body: Body, field: string)
  {
    field !in body || body[field].Null? || (body[field].Str? && IsValidId(body[field].s))
  }

  /**
   * A body the checks accept, with a string title, a string or absent
   * content, a folder id string (or none) and an array of id strings (or
   * none), is stored as sent: its ids in canonical form, and no other field.
   */
  lemma WellTypedNoteStored(body: Body, caller: Oid, now: int)
    requires CreateRejection(body, caller).None?
    requires body["title"].Str?
    requires "content" !in body || body["content"].Str?
    requires IdStringOrNull(body, "folderId")
    requires "tags" !in body || (body["tags"].Arr? && forall i :: 0 <= i < |body["tags"].items| ==> body["tags"].items[i].Str?)
    ensures DraftNote(body, caller, now).Success?
    ensures DraftNote(body, caller, now).value.title == Some(body["title"].s)
    ensures DraftNote(body, caller, now).value.content == (if "content" in body then Some(body["content"].s) else None)
    ensures DraftNote(body, caller, now).value.folderId
      == (if "folderId" in body && body["folderId"].Str? then Some(ToOid(body["folderId"].s)) else None)
    ensures "tags" in body ==>
      (|DraftNote(body, caller, now).value.tags| == |body["tags"].items|
       && forall i :: 0 <= i < |body["tags"].items| ==> DraftNote(body, caller, now).value.tags[i] == ToOid(body["tags"].items[i].s))
    ensures "tags" !in body ==> DraftNote(body, caller, now).value.tags == []
  {
  }

  /** POST /api/notes. `newId` stands for the id the store assigns and `now` for the clock. */
  method CreateNote(store: Store, body: Body, caller: Oid, originalUrl: string, newId: Oid, now: int)
    returns (reply: Reply)
    requires store.Valid()
    modifies store
    ensures store.Valid()
    ensures store.users == old(store.users) && store.folders == old(store.folders) && store.tags == old(store.tags)
    ensures CreateRejection(body, caller).Some?
      ==> reply == CreateRejection(body, caller).value && store.notes == old(store.notes)
    ensures CreateRejection(body, caller).None? && DraftNote(body, caller, now).Failure?
      ==> reply == Next(StoreFailure(DraftNote(body, caller, now).error)) && store.notes == old(store.notes)
    ensures CreateRejection(body, caller).None? && DraftNote(body, caller, now).Success? && newId in old(store.notes)
      ==> reply == Next(StoreFailure(DuplicateKey)) && store.notes == old(store.notes)
    ensures CreateRejection(body, caller).None? && DraftNote(body, caller, now).Success? && newId !in old(store.notes)
      ==> (store.notes == old(store.notes)[newId := DraftNote(body, caller, now).value]
        && reply == Json(201, Some(originalUrl + "/" + newId), NoteJson(newId, DraftNote(body, caller, now).value)))
  {
    var rejected := CreateRejection(body, caller);
    if rejected.Some? {
      return rejected.value;
    }
    var draft := DraftNote(body, caller, now);
    if draft.Failure? {
      return Next(StoreFailure(draft.error));
    }
    var err := store.CreateNote(newId, draft.value);
    if err.Some? {
      return Next(StoreFailure(err.value));
    }
    reply := Json(201, Some(originalUrl + "/" + newId), NoteJson(newId, draft.value));
  }

  // ---------------------------------------------------------------------
  // PUT /api/notes/:id
  // ---------------------------------------------------------------------

  /** The fields a note update may set, in the order the update is assembled. */
  const UpdateFields: seq<string> := ["title", "content", "folderId", "tags"]

  /** The update document: the body's values for the update fields it has. */
  function UpdateOf(body: Body): (u: map<string, Value>)
    ensures forall f :: f in u <==> f in UpdateFields && f in body
    ensures forall f :: f in u ==> u[f] == body[f]
  {
    map f | f in UpdateFields && f in body :: body[f]
  }

  /** `updateFields.forEach(field => { if (field in req.body) updateNote[field] = req.body[field]; })` */
  method CollectUpdate(body: Body) returns (update: map<string, Value>)
    ensures update == UpdateOf(body)
  {
    update := map[];
    for i := 0 to |UpdateFields|
      invariant forall f :: f in update <==> f in UpdateFields[..i] && f in body
      invariant forall f :: f in update ==> update[f] == body[f]
    {
      assert UpdateFields[..i + 1] == UpdateFields[..i] + [UpdateFields[i]];
      var field := UpdateFields[i];
      if field in body {
        update := update[field := body[field]];
      }
    }
    assert UpdateFields[..|UpdateFields|] == UpdateFields;
  }

  /**
   * `findByIdAndUpdate` casts the update's paths in order; a path the update
   * lacks is left alone, a path it has takes the cast value, and the update
   * is refused when any path does not cast.
   */
  function CastUpdate(u: map<string, Value>): (r: Result<NotePatch, StoreError>)
    ensures r.Success? <==>
      ("title" in u ==> CastText(u["title"], "title").Success?)
      && ("content" in u ==> CastText(u["content"], "content").Success?)
      && ("folderId" in u ==> CastOid(u["folderId"], "folderId").Success?)
      && ("tags" in u ==> CastOidList(u["tags"], "tags").Success?)
    ensures r.Failure? ==> r.error.CastFailed? && r.error.path in u
    ensures r.Success? ==> ((r.value.title.Some? <==> "title" in u) && (r.value.content.Some? <==> "content" in u)
      && (r.value.folderId.Some? <==> "folderId" in u) && (r.value.tags.Some? <==> "tags" in u))
    ensures r.Success? && "title" in u ==> r.value.title.value == CastText(u["title"], "title").value
    ensures r.Success? && "content" in u ==> r.value.content.value == CastText(u["content"], "content").value
    ensures r.Success? && "folderId" in u ==> r.value.folderId.value == CastOid(u["folderId"], "folderId").value
    ensures r.Success? && "tags" in u ==> r.value.tags.value == CastOidList(u["tags"], "tags").value
  {
    var title := if "title" in u then CastText(u["title"], "title") else Success(None);
    var content := if "content" in u then CastText(u["content"], "content") else Success(None);
    var folderId := if "folderId" in u then CastOid(u["folderId"], "folderId") else Success(None);
    var tags := if "tags" in u then CastOidList(u["tags"], "tags") else Success([]);
    if title.Failure? then Failure(title.error)
    else if content.Failure? then Failure(content.error)
    else if folderId.Failure? then Failure(folderId.error)
    else if tags.Failure? then Failure(tags.error)
    else Success(NotePatch(
      if "title" in u then Some(title.value) else None,
      if "content" in u then Some(content.value) else None,
      if "folderId" in u then Some(folderId.value) else None,
      if "tags" in u then Some(tags.value) else None))
  }

  /** `title === ''`: only the empty string itself, not an absent or other falsy title. */
  predicate EmptyTitle(body: Body)
  {
    "title" in body && body["title"] == Str("")
  }

  /**
   * The checks that end the update handler, in order: the id, a given
   * `folderId`, an empty title, and a truthy `tags` that is not an array
   * (`tags.filter` throws).
   */
  function UpdateRejection(id: string, body: Body): (r: Option<Reply>)
    ensures r.None? <==>
      IsValidId(id) && FolderIdPasses(body) && !EmptyTitle(body) && (Truthy(TagsOf(body)) ==> TagsOf(body).Arr?)
    ensures !IsValidId(id) ==> r == Some(Next(InvalidId))
    ensures IsValidId(id) && !FolderIdPasses(body) ==> r == Some(Next(InvalidFolderId))
    ensures IsValidId(id) && FolderIdPasses(body) && EmptyTitle(body) ==> r == Some(Next(MissingTitle))
    ensures IsValidId(id) && FolderIdPasses(body) && !EmptyTitle(body) && Truthy(TagsOf(body)) && !TagsOf(body).Arr?
      ==> r == Some(Next(TagsNotArray))
  {
    var tags := TagsOf(body);
    if !IsValidId(id) then Some(Next(InvalidId))
    else if TruthyField(body, "folderId") && !IsValidIdValue(body["folderId"]) then Some(Next(InvalidFolderId))
    else if "title" in body && body["title"] == Str("") then Some(Next(MissingTitle))
    else if Truthy(tags) && !tags.Arr? then Some(Next(TagsNotArray))
    else None
  }

  /**
   * The error the tag check passes on without returning: the handler goes on
   * to the update after it.
   */
  function TagNotice(body: Body): (r: Option<Reply>)
    ensures r.Some? <==> "tags" in body && body["tags"].Arr? && !AllValidIds(body["tags"])
    ensures r.Some? ==> r == Some(Next(BadRequest("The `tagsId` is not valid")))
  {
    var tags := TagsOf(body);
    if tags.Arr? && |BadIds(tags.items)| > 0 then Some(Next(BadRequest("The `tagsId` is not valid"))) else None
  }

  /** When the tag check passes an error on, the update that follows it is refused by the cast, so nothing is written. */
  lemma NoticedTagsAreNotStored(body: Body)
    requires TagNotice(body).Some?
    ensures CastUpdate(UpdateOf(body)).Failure?
  {
    var items := body["tags"].items;
    var i :| 0 <= i < |items| && !IsValidIdValue(items[i]);
    var u := UpdateOf(body);
    assert u["tags"] == body["tags"];
    assert !CastEach(items, "tags").Success?;
  }

  /**
   * An update changes only what the body sends: a field the body lacks keeps
   * its value, and a field it sends takes the cast value.
   */
  lemma UpdateIsPartial(body: Body, n: Note, now: int)
    requires CastUpdate(UpdateOf(body)).Success?
    ensures "title" !in body ==> PatchNote(n, CastUpdate(UpdateOf(body)).value, now).title == n.title
    ensures "content" !in body ==> PatchNote(n, CastUpdate(UpdateOf(body)).value, now).content == n.content
    ensures "folderId" !in body ==> PatchNote(n, CastUpdate(UpdateOf(body)).value, now).folderId == n.folderId
    ensures "tags" !in body ==> PatchNote(n, CastUpdate(UpdateOf(body)).value, now).tags == n.tags
    ensures "title" in body ==> PatchNote(n, CastUpdate(UpdateOf(body)).value, now).title == CastText(body["title"], "title").value
    ensures "content" in body ==> PatchNote(n, CastUpdate(UpdateOf(body)).value, now).content == CastText(body["content"], "content").value
    ensures "folderId" in body ==> PatchNote(n, CastUpdate(UpdateOf(body)).value, now).folderId == CastOid(body["folderId"], "folderId").value
    ensures "tags" in body ==> PatchNote(n, CastUpdate(UpdateOf(body)).value, now).tags == CastOidList(body["tags"], "tags").value
    ensures PatchNote(n, CastUpdate(UpdateOf(body)).value, now).userId == n.userId
    ensures PatchNote(n, CastUpdate(UpdateOf(body)).value, now).createdAt == n.createdAt
    ensures PatchNote(n, CastUpdate(UpdateOf(body)).value, now).updatedAt == now
  {
    var u := UpdateOf(body);
    assert "title" in u <==> "title" in body;
    assert "content" in u <==> "content" in body;
    assert "folderId" in u <==> "folderId" in body;
    assert "tags" in u <==> "tags" in body;
  }

  /**
   * PUT /api/notes/:id. The note is looked up by id alone, whoever owns it.
   * When the tag check has passed an error on, that error is the reply and
   * the update that still follows is refused.
   */
  method UpdateNote(store: Store, id: string, body: Body, now: int) returns (reply: Reply)
    requires store.Valid()
    modifies store
    ensures store.Valid()
    ensures store.users == old(store.users) && store.folders == old(store.folders) && store.tags == old(store.tags)
    ensures UpdateRejection(id, body).Some?
      ==> reply == UpdateRejection(id, body).value && store.notes == old(store.notes)
    ensures UpdateRejection(id, body).None? && TagNotice(body).Some?
      ==> reply == TagNotice(body).value && store.notes == old(store.notes)
    ensures UpdateRejection(id, body).None? && TagNotice(body).None? && CastUpdate(UpdateOf(body)).Failure?
      ==> reply == Next(StoreFailure(CastUpdate(UpdateOf(body)).error)) && store.notes == old(store.notes)
    ensures IsValidId(id) && UpdateRejection(id, body).None? && TagNotice(body).None? && CastUpdate(UpdateOf(body)).Success?
      ==> (ToOid(id) !in old(store.notes) ==> reply == NextRoute && store.notes == old(store.notes))
    ensures IsValidId(id) && UpdateRejection(id, body).None? && TagNotice(body).None? && CastUpdate(UpdateOf(body)).Success?
      ==> (ToOid(id) in old(store.notes) ==>
           (store.notes == old(store.notes)[ToOid(id) := PatchNote(old(store.notes)[ToOid(id)], CastUpdate(UpdateOf(body)).value, now)]
            && reply == Json(200, None, NoteJson(ToOid(id), store.notes[ToOid(id)]))))
  {
    var update := CollectUpdate(body);
    var rejected := UpdateRejection(id, body);
    if rejected.Some? {
      return rejected.value;
    }
    var notice := TagNotice(body);
    if notice.Some? {
      NoticedTagsAreNotStored(body);
    }
    var patch := CastUpdate(update);
    var outcome: Reply;
    if patch.Failure? {
      outcome := Next(StoreFailure(patch.error));
    } else {
      var updated := store.UpdateNote(ToOid(id), patch.value, now);
      outcome := if updated.Some? then Json(200, None, NoteJson(ToOid(id), updated.value)) else NextRoute;
    }
    reply := if notice.Some? then notice.value else outcome;
  }

  // ---------------------------------------------------------------------
  // DELETE /api/notes/:id
  // ---------------------------------------------------------------------

  /** DELETE /api/notes/:id: 204 when the caller's note was removed, 404 when the caller has no such note. */
  method DeleteNote(store: Store, id: string, caller: Oid) returns (reply: Reply)
    requires store.Valid()
    modifies store
    ensures store.Valid()
    ensures store.users == old(store.users) && store.folders == old(store.folders) && store.tags == old(store.tags)
    ensures !IsValidId(id) ==> reply == Next(InvalidId) && store.notes == old(store.notes)
    ensures IsValidId(id) ==> store.notes == RemoveOwned(old(store.notes), ToOid(id), caller)
    ensures IsValidId(id) ==> reply == SendStatus(if OwnedBy(old(store.notes), ToOid(id), caller) then 204 else 404)
  {
    if !IsValidId(id) {
      return Next(InvalidId);
    }
    var n := store.DeleteOwnedNote(ToOid(id), caller);
    reply := SendStatus(if n > 0 then 204 else 404);
  }
}
