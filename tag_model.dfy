/**
 * The tag schema: `name` and `userId` are required, (name, userId) is a
 * unique index, timestamps are kept, and `toObject` shows the virtual `id`
 * in place of `_id` and drops the version key.
 */
module TagModel {
  import opened Wrappers
  import opened Json
  import opened ObjectIds
  import opened Records

  /** A stored tag. The owner is required, so it is always present. */
  datatype Tag = Tag(name: string, userId: Oid, createdAt: int, updatedAt: int)

  /** The document handed to `Tag.create`, before the schema has checked it. */
  datatype TagDraft = TagDraft(name: Option<string>, userId: Option<Oid>)

  /** The `required` validators: a missing or empty `name`, then a missing `userId`. */
  function SchemaError(d: TagDraft): (r: Option<StoreError>)
    ensures r.None? <==> d.name.Some? && d.name.value != "" && d.userId.Some?
    ensures r.Some? ==> r.value.ValidationFailed?
    ensures d.name.None? || d.name.value == "" ==> r == Some(ValidationFailed("name"))
    ensures d.name.Some? && d.name.value != "" && d.userId.None? ==> r == Some(ValidationFailed("userId"))
  {
    if d.name.None? || d.name.value == "" then Some(ValidationFailed("name"))
    else if d.userId.None? then Some(ValidationFailed("userId"))
    else None
  }

  predicate TagKeyInUse(tags: map<Oid, Tag>, name: string, userId: Oid)
  {
    exists k :: k in tags && tags[k].name == name && tags[k].userId == userId
  }

  /** The unique index on (name, userId). */
  predicate TagKeysUnique(tags: map<Oid, Tag>)
  {
    forall a, b :: a in tags && b in tags && a != b ==>
      tags[a].name != tags[b].name || tags[a].userId != tags[b].userId
  }

  /**
   * `Tag.create`: the schema is checked first, then the indexes. A created
   * tag has a non-empty name, an owner, and both timestamps set to `now`.
   */
  function AddTag(tags: map<Oid, Tag>, id: Oid, d: TagDraft, now: int): (r: Result<map<Oid, Tag>, StoreError>)
    ensures SchemaError(d).Some? ==> r == Failure(SchemaError(d).value)
    ensures r.Success? <==> SchemaError(d).None? && id !in tags && !TagKeyInUse(tags, d.name.value, d.userId.value)
    ensures SchemaError(d).None? && r.Failure? ==> r.error == DuplicateKey
    ensures r.Success? ==> r.value.Keys == tags.Keys + {id}
    ensures r.Success? ==> r.value[id] == Tag(d.name.value, d.userId.value, now, now)
    ensures r.Success? ==> forall k :: k in tags ==> r.value[k] == tags[k]
    ensures TagKeysUnique(tags) && r.Success? ==> TagKeysUnique(r.value)
  {
    var invalid := SchemaError(d);
    if invalid.Some? then Failure(invalid.value)
    else if id in tags || TagKeyInUse(tags, d.name.value, d.userId.value) then Failure(DuplicateKey)
    else Success(tags[id := Tag(d.name.value, d.userId.value, now, now)])
  }

  /** No tag without an owner can be created. */
  lemma OwnerlessTagRefused(tags: map<Oid, Tag>, id: Oid, name: string, now: int)
    requires name != ""
    ensures AddTag(tags, id, TagDraft(Some(name), None), now) == Failure(ValidationFailed("userId"))
  {
  }

  /**
   * `findByIdAndUpdate(id, {$set: {name}})` on tags: validators do not run on
   * updates, but the unique index does; only name and update time change.
   */
  function RenameTag(tags: map<Oid, Tag>, id: Oid, name: string, now: int): (r: Updated<Tag>)
    ensures r.Missing? <==> id !in tags
    ensures r.Refused? <==> id in tags && TagKeyInUse(tags - {id}, name, tags[id].userId)
    ensures r.Refused? ==> r.error == DuplicateKey
    ensures r.Changed? ==> (r.table.Keys == tags.Keys && r.record == r.table[id]
      && r.record == Tag(name, tags[id].userId, tags[id].createdAt, now))
    ensures r.Changed? ==> forall k :: k in tags && k != id ==> r.table[k] == tags[k]
    ensures TagKeysUnique(tags) && r.Changed? ==> TagKeysUnique(r.table)
  {
    if id !in tags then Missing
    else if TagKeyInUse(tags - {id}, name, tags[id].userId) then Refused(DuplicateKey)
    else
      var t := tags[id].(name := name, updatedAt := now);
      assert forall k :: k in tags && k != id ==> k in tags - {id};
      Changed(tags[id := t], t)
  }

  /** The stored document: `_id`, the schema paths, the timestamps and the version key. */
  function Document(id: Oid, t: Tag, version: int): map<string, Value>
  {
    map["_id" := Str(id), "name" := Str(t.name), "userId" := Str(t.userId),
        "createdAt" := Num(t.createdAt), "updatedAt" := Num(t.updatedAt), "__v" := Num(version)]
  }

  /**
   * The `toObject` options: `versionKey: false` leaves out `__v`, `virtuals:
   * true` adds `id`, and the transform deletes `_id` from the result.
   */
  method ToObject(id: Oid, t: Tag, version: int) returns (ret: map<string, Value>)
    ensures ret.Keys == {"id", "name", "userId", "createdAt", "updatedAt"}
    ensures "_id" !in ret && "__v" !in ret
    ensures ret["id"] == Str(id) && ret["name"] == Str(t.name) && ret["userId"] == Str(t.userId)
    ensures ret["createdAt"] == Num(t.createdAt) && ret["updatedAt"] == Num(t.updatedAt)
  {
    ret := Document(id, t, version) - {"__v"};
    ret := ret["id" := ret["_id"]];
    ret := ret - {"_id"};
  }
}
