# Noteful API handlers in Dafny

A model of the request handlers of a small Express/Mongoose notes service.
Users register at `POST /api/users`. Authenticated callers then keep notes, and
each note may sit in a folder and carry tags:

- `GET/POST/PUT/DELETE /api/notes[/:id]`
- `GET/POST/PUT/DELETE /api/folders[/:id]`
- `GET/POST/PUT/DELETE /api/tags[/:id]`

Each handler is a method. It takes the store (a `Store` object holding the four
collections as maps from ids to records) and the parsed request: the body as
JSON values, the path id as a string, and the caller's id. It returns a
`Reply`, which is one of:

- a JSON response with status and `Location`;
- `sendStatus`;
- `next(err)`, which passes an error object on;
- `next()`, which passes the request on to the not-found handler.

Its `ensures` clauses state the reply and the new store for every branch of
the handler.

What the model keeps from the underlying libraries:

- **Ids.** `mongoose.Types.ObjectId.isValid` accepts any 12-character string,
  any 24-hex-digit string and any number. Ids are cast to a canonical
  24-lower-hex `Oid`.
- **Casting.** The store casts what it writes:
  - string paths render numbers and booleans and refuse arrays and objects;
  - id paths accept `null` or a valid id string;
  - id-array paths cast each element.
- **Required and unique constraints.** The tag schema requires `name` and
  `userId` and has a unique (name, userId) index. Folders have a unique
  (name, userId) index, and users a unique username. The store keeps all three
  uniqueness properties as its class invariant `Store.Valid`.
- **Duplicate keys.** A refused write carries Mongo's duplicate-key code 11000.
  The handlers translate that code to a 400.
- **JavaScript semantics.** The model keeps JavaScript truthiness,
  `String.prototype.trim` and `Array.prototype.find` as the handlers use them.

Lists are specified by `Listing.Selects`, which means exactly the matching
records, each once, plus `SortedBy`. `Listing.SelectSorted` builds them by
sorted insertion.

Behaviour worth knowing, all modelled as written:

- The registration stages run in the order missing field, wrong type,
  surrounding white space, length. The messages are the code's. The tests
  expect other texts for the white-space cases, and the model follows the code.
- A taken username is passed on as a plain object with `code: 422` and no
  `status` (`Http.Error(None, Some(422), ...)`). The handler does not answer
  it itself.
- `PUT /api/notes/:id` looks the note up by id alone, so it is not scoped to
  the caller. `GET` and `DELETE` are scoped to the caller.
- When `PUT /api/notes/:id` meets an invalid tag id, it passes a 400 on but
  does not return. The update that follows is then refused by the cast, so
  in the model nothing is written (`Notes.NoticedTagsAreNotStored`; see Left
  out for `null` tag ids). The guard on `updateFields.tags` can never fire,
  because `updateFields` is an array.
- Folders and tags are not scoped to the caller in any handler. Folders are
  created without an owner.
- The tag schema sets `toObject` options (drop `_id` and `__v`, add `id`), but
  `res.json` uses `toJSON`, so these options do not shape the tag handlers'
  replies (TagModel.ToObject models the option itself).
- Deleting a tag pulls its id from the notes of every user, and so stamps
  every note with a new update time, which reorders `GET /api/notes`.

## Model

| member | source | states |
|---|---|---|
| Users.Find | routes/users.js:16 | `find` returns nothing exactly when no element satisfies the predicate; otherwise it returns the first element that does |
| Users.MissingField | routes/users.js:15-16 | the first of username and password that is not a key of the body, username first |
| Users.NonStringField | routes/users.js:25-28 | the first of username, password and fullname that is present with a non-string value, in that order |
| Users.UntrimmedIff | routes/users.js:40 | `s.trim() !== s` holds exactly when `s` starts or ends with white space, and a string with no white space at its edges keeps its length when trimmed |
| Users.NonTrimmedField | routes/users.js:38-41 | for string fields, the first of username and password with white space at an edge |
| Users.TrimmedFieldsUnchanged | routes/users.js:61-70 | after the white-space stage, the trimmed length the size checks measure is the field's own length |
| Users.TooSmallField | routes/users.js:61-65 | username shorter than 1 is reported first, then password shorter than 8 |
| Users.TooLargeField | routes/users.js:66-70 | only a password longer than 72 is too large |
| Users.RejectionsAre422 | routes/users.js:12-83 | every rejection by the registration validator is a 422: a missing field is passed on to `next`, and once both fields are present every rejection is answered directly as a validation JSON with no Location |
| Users.AcceptsExactlyAcceptable | routes/users.js:12-83 | validation passes exactly for bodies with a username and password present as strings, a string or absent fullname, no edge white space, username length at least 1 and password length 8 to 72 inclusive |
| Users.MissingFieldStage | routes/users.js:15-22 | a body missing a required key gets `next` with a 422 ``Missing '<field>' in request body``, username before password |
| Users.TypeStage | routes/users.js:25-36 | when both keys are present, a non-string field gives a 422 `Incorrect field type: expected string` located at the first offending field |
| Users.WhitespaceStage | routes/users.js:37-49 | for string fields, edge white space gives a 422 `Cannot start or end with whitespace` located at username before password |
| Users.SizeStage | routes/users.js:50-83 | for trimmed fields, the length reply names the violated bound: at least 1 for username, at least 8 for password, at most 72 for password; too small wins |
| Users.Register | routes/users.js:12-119 | a body that fails validation gets that stage's reply and writes nothing; for one that passes, a taken username is passed on with code 422 and a used id becomes 400 `Username already exists`, each writing nothing; otherwise exactly the user with the body's username, the digest of its password and its fullname is added and the reply is 201 with Location `<originalUrl>/<id>` |
| Users.CreateAccount | routes/users.js:85-118 | a taken username is passed on with code 422 and the users are unchanged; a duplicate-key refusal becomes 400 `Username already exists`; otherwise exactly one user is added, whose password is the digest, and the reply is 201 with Location `<originalUrl>/<id>` |
| Text.TrimStart | routes/users.js:40 | the result is a suffix starting with a non-space, and only white space was removed |
| Text.TrimEnd | routes/users.js:40 | the result is a prefix ending with a non-space, and only white space was removed |
| Text.TrimCutsOnlySpace | routes/users.js:40 | `trim()` keeps the slice of the string between its leading and trailing white space: everything cut is white space, and no white space is left at either edge |
| Text.TrimUnchangedIff | routes/users.js:40 | trimming leaves a string unchanged exactly when it is empty or has no white space at either edge |
| Text.TrimIdempotent | routes/users.js:64 | trimming twice is trimming once |
| Text.NatToString | routes/users.js:77-80 | the decimal rendering of a bound: non-empty, digits only, no leading zero |
| Text.NatToStringRoundTrip | routes/users.js:77-80 | reading the rendered digits back gives the number |
| Text.IntToString | routes/notes.js:122-124 | a number stored in a string path renders as decimal digits with no leading zero that read back to the number, after a `-` when it is negative |
| Text.LexLeTotal | routes/folders.js:14 | any two names compare under the ascending name order |
| Text.LexLeTransitive | routes/folders.js:14 | the name order is transitive |
| Text.LexLeAntisymmetric | routes/folders.js:14 | names that sort each before the other are equal |
| ObjectIds.ToOid | routes/notes.js:63 | a 24-character id casts to its lower-case hex digits |
| ObjectIds.CanonicalRoundTrip | routes/notes.js:57 | a stored id is a valid id and casts to itself |
| ObjectIds.CaseInsensitiveIds | routes/notes.js:63 | 24-digit ids that differ only in the case of hex letters name the same record |
| ObjectIds.ValidIdShapes | routes/notes.js:57 | `isValid` accepts a string of 12 characters whatever they are, or of 24 hexadecimal digits, and no other length; every number; no null, boolean, array or object; and every stored id |
| ObjectIds.BytesHex | routes/notes.js:63 | a 12-character id casts to 24 lower-case hexadecimal digits: for each character, the high and then the low hex digit of its code modulo 256 |
| ObjectIds.BytesHexInjective | routes/notes.js:63 | 12-character ids whose character codes differ modulo 256 cast to different ids |
| ObjectIds.TestIds | test/folders-test.js:56-59 | `NOT-A-VALID-ID` is not a valid id, while the 12-character `DOESNOTEXIST` is |
| Records.AddUser | routes/users.js:99-103 | an insert succeeds exactly when the id is fresh and the username unused; it adds only that user and keeps usernames unique |
| Records.AddFolder | routes/folders.js:59-60 | an insert succeeds exactly when the id is fresh and (name, owner) unused; otherwise it is a duplicate key; it adds only that folder and keeps the index unique |
| Records.RenameFolder | routes/folders.js:102-103 | a missing id is not found; a name held by another folder of the same owner is a duplicate key; otherwise only that folder's name and update time change and the index stays unique |
| Records.AddNote | routes/notes.js:122-124 | an insert succeeds exactly when the id is fresh and adds exactly that note |
| Records.RemoveOwned | routes/notes.js:211 | the note is removed exactly when both its id and its owner match; every other note is kept unchanged |
| Records.EmptyPatchOnlyStamps | routes/notes.js:186 | an update that sets no field changes only the note's update time |
| Records.PatchIdempotent | routes/notes.js:186 | sending the same update twice at the same time leaves the note as sending it once |
| Records.PatchesCompose | routes/notes.js:186 | two updates in a row leave the note as one merged update, in which a field the later one sets wins, stamped with the later time |
| Records.UpdateNoteById | routes/notes.js:186 | a missing id is not found; otherwise only that note is patched and no other note changes |
| Records.UnlinkFolder | routes/folders.js:130 | afterwards no note refers to the folder; a note that did loses only its `folderId` and gets the new update time; every other note is unchanged |
| Records.Without | routes/tags.js:129 | `$pull` removes every occurrence of the id, keeps the count of every other id, and changes nothing when the id is absent |
| Records.WithoutSingle | routes/tags.js:129 | `$pull` on one element drops it exactly when it is the pulled id |
| Records.WithoutConcat | routes/tags.js:129 | `$pull` works piecewise over a concatenation, so with the single case the remaining ids keep their order |
| Records.PullTag | routes/tags.js:129 | after the pull no note carries the tag and every note has the new update time; only `tags` and the update time change, and each note's tags are its old tags with the id pulled, in their order |
| Records.UnlinkThenRemoveKeepsFolderRefs | routes/folders.js:130-132 | unlinking and then removing the folder leaves every note's folder reference resolving |
| Records.RemoveAloneLeavesDangling | routes/folders.js:130-132 | removing the folder without the unlink step can leave a dangling reference |
| Casting.CastText | routes/notes.js:122-124 | a string path refuses exactly arrays and objects with a cast error; null clears it; a string is kept as is, a number becomes its decimal text and a boolean `true` or `false`; a truthy value is never stored empty |
| Casting.CastName | routes/folders.js:55-60 | a truthy name casts to the non-empty text a string path gives it (so `5` becomes `"5"`), or is refused as a cast error exactly when it is an array or object |
| Casting.CastOid | routes/notes.js:122-124 | an id path accepts exactly null or a valid id string and stores the canonical id |
| Casting.CastEach | routes/notes.js:122-124 | an id array casts exactly when every element is a valid id string, element by element in order |
| Casting.CastOidList | routes/notes.js:122-124 | an id-array path casts exactly when the value is null, a valid id string, or an array of valid id strings; null stores no ids, a string one, and an array its elements' canonical ids in order; anything else is a cast error on the path |
| Listing.Insert | routes/folders.js:14 | insertion adds exactly one row and keeps all the others |
| Listing.InsertSorted | routes/folders.js:14 | inserting into sorted rows under a total preorder keeps them sorted |
| Listing.InsertDistinct | routes/folders.js:14 | inserting a row with a new id keeps ids distinct |
| Listing.SelectSorted | routes/folders.js:12-14 | the result holds exactly the matching records, each once, sorted by the key |
| Store.FolderNameOrderIsTotal | routes/folders.js:14 | sorting folders by name ascending is a total preorder |
| Store.TagNameOrderIsTotal | routes/tags.js:13 | sorting tags by name ascending is a total preorder |
| Store.Store.CountUsername | routes/users.js:85-88 | the count is positive exactly when the username is taken |
| Store.Store.CreateUser | routes/users.js:99-103 | the users become the insert's result, or stay the same with a duplicate-key error; the invariant holds |
| Store.Store.CreateNote | routes/notes.js:124 | a fresh id adds the note; a used id is a duplicate key and changes nothing |
| Store.Store.FindOwnedNote | routes/notes.js:63 | a note is found exactly when both its id and its owner match |
| Store.Store.FindNotes | routes/notes.js:41-43 | the notes matching the criteria, each once, most recently updated first |
| Store.Store.UpdateNote | routes/notes.js:186 | a missing id writes nothing; otherwise the note becomes its patched form, which is returned |
| Store.Store.DeleteOwnedNote | routes/notes.js:211-213 | the deleted count is 1 exactly when a note with that id and owner existed, and the notes become the remaining ones |
| Store.Store.FoldersByName | routes/folders.js:12-14 | every folder, each once, in ascending name order |
| Store.Store.FindFolder | routes/folders.js:32-33 | a folder is found exactly when the id is stored |
| Store.Store.CreateFolder | routes/folders.js:59-60 | the folders become the insert's result, or stay the same with a duplicate-key error |
| Store.Store.RenameFolder | routes/folders.js:102-103 | the folders change exactly as the rename says, and the unique index still holds |
| Store.Store.UnsetFolder | routes/folders.js:130 | the notes become the unlinked notes, stamped with the given time |
| Store.Store.RemoveFolder | routes/folders.js:132 | only that folder is removed |
| Store.Store.TagsByName | routes/tags.js:11-13 | every tag, each once, in ascending name order |
| Store.Store.FindTag | routes/tags.js:32-33 | a tag is found exactly when the id is stored |
| Store.Store.CreateTag | routes/tags.js:62-63 | the tags become the insert's result, or stay the same with the schema or duplicate-key error |
| Store.Store.RenameTag | routes/tags.js:102-103 | the tags change exactly as the rename says, and the unique index still holds |
| Store.Store.PullTagFromNotes | routes/tags.js:129 | the notes become the pulled notes, across all owners, stamped with the given time |
| Store.Store.RemoveTag | routes/tags.js:131 | only that tag is removed |
| Http.StoreFailure | routes/notes.js:131-133 | a store error carries no HTTP status; it carries code 11000 exactly when it is a duplicate key |
| Http.TranslateDuplicate | routes/folders.js:70-76 | a duplicate key becomes a 400 with the handler's message; any other error is passed on unchanged |
| TagModel.SchemaError | models/tag.js:5-8 | the schema accepts exactly a non-empty name with an owner; a missing or empty name is reported on `name`, and otherwise a missing owner on `userId` |
| TagModel.AddTag | models/tag.js:5-13 | the schema is checked before the index; a created tag has both timestamps set to now; an insert succeeds exactly when the draft is valid, the id fresh and (name, userId) unused, and it keeps the index unique |
| TagModel.OwnerlessTagRefused | models/tag.js:7 | a named tag without an owner is always refused on `userId` |
| TagModel.RenameTag | models/tag.js:10 | a rename that would repeat (name, userId) is a duplicate key; otherwise only name and update time change and the index stays unique |
| TagModel.ToObject | models/tag.js:16-22 | the output has exactly `id`, `name`, `userId`, `createdAt` and `updatedAt`, with no `_id` and no `__v` |
| Notes.BuildFilter | routes/notes.js:17-39 | the filter holds the caller's id, and the search term, folder id and tag id exactly when each is given and not empty, as the query's strings |
| Notes.CastFilter | routes/notes.js:41 | the store refuses the filter exactly when a folder id or tag id in it is not a valid id, naming `folderId` first; otherwise the criteria hold the same title and owner and the canonical ids |
| Notes.FilterSelectsListed | routes/notes.js:20-39 | the filter is refused exactly when a given folderId or tagId is invalid, folderId first; otherwise it matches exactly the caller's notes that match the search term, sit in the folder and carry the tag |
| Notes.ListNotes | routes/notes.js:16-50 | an invalid folderId, then tagId, fails the cast; otherwise 200 with exactly the listed notes, each once, most recently updated first |
| Notes.GetNote | routes/notes.js:53-75 | an invalid id gives 400 ``The `id` is not valid``; the note is returned only when both id and owner match; otherwise not found |
| Notes.BadIds | routes/notes.js:113 | the filtered list holds exactly the elements that are not valid ids, and is empty exactly when all are valid |
| Notes.TagsOf | routes/notes.js:79 | the destructured `tags` is the body's value whenever the key is present, so a falsy `tags` always comes from the body; the default is the empty array |
| Notes.CreateRejection | routes/notes.js:83-119 | the checks pass exactly for a truthy title, a valid truthy folderId and a truthy tags value that is an array of valid ids; they fail in order: a falsy title gives 400 ``Missing `title` in request body``, then an invalid folderId 400 ``The `folderId` is not valid``, then a truthy non-array tags the `tags.filter is not a function` exception, then an invalid tag id 400 ``The `tags` array contains an invalid `id` `` |
| Notes.DraftNote | routes/notes.js:122-124 | the document casts exactly when title, content, folderId and tags each cast; a refusal is a cast error on one of them; the created note holds their cast values (so `"content": 5` is stored as `"5"`), is owned by the caller, is stamped now, and has a non-empty title when the title was truthy |
| Notes.WellTypedNoteStored | routes/notes.js:79-124 | an accepted, well-typed body is stored as sent: its title, its content, its folder id and its tags in canonical form, with tags `[]` when the body has none |
| Notes.CreateNote | routes/notes.js:78-134 | a rejected body gets the check's reply and writes nothing; a cast failure or used id writes nothing; otherwise exactly one note is added and the reply is 201 with Location `<originalUrl>/<id>` |
| Notes.UpdateOf | routes/notes.js:140-147 | the update holds exactly those of title, content, folderId and tags that are keys of the body, with the body's values |
| Notes.CollectUpdate | routes/notes.js:141-147 | the `forEach` loop builds exactly that update |
| Notes.CastUpdate | routes/notes.js:186 | the update casts exactly when each path it has casts, and a refusal names one of its paths; a cast update sets exactly the paths the update has, title and content to their text cast, folderId to its id cast and tags to its id-array cast |
| Notes.UpdateRejection | routes/notes.js:150-173 | the update checks pass exactly for a valid id, a valid truthy folderId, a title other than `""` (an absent title passes) and a truthy tags value that is an array; they fail in order: an invalid id gives 400 ``The `id` is not valid``, then an invalid folderId 400 ``The `folderId` is not valid``, then a title of `""` 400 ``Missing `title` in request body``, then a truthy non-array tags the `tags.filter is not a function` exception |
| Notes.TagNotice | routes/notes.js:165-173 | the tag check passes on 400 ``The `tagsId` is not valid`` exactly when the body's tags is an array with an element that is not a valid id |
| Notes.NoticedTagsAreNotStored | routes/notes.js:165-186 | when an invalid tag id is reported without returning, the update that follows is refused by the cast (for a `null` element, see Left out) |
| Notes.UpdateIsPartial | routes/notes.js:141-147 | a field the body lacks keeps its value; a sent title or content takes its text cast, a sent folderId its id cast and sent tags their id-array cast; the owner and creation time never change and the update time is now |
| Notes.UpdateNote | routes/notes.js:137-197 | the checks' reply, then the invalid-tag reply, then the cast error, each writing nothing; otherwise a missing id is not found, and a stored note, of any owner, is patched and returned |
| Notes.DeleteNote | routes/notes.js:200-222 | an invalid id gives 400 and writes nothing; otherwise only the caller's note with that id is removed, with 204 if it existed and 404 if not |
| Folders.ListFolders | routes/folders.js:10-23 | 200 with every folder, each once, in ascending name order, with no owner filter |
| Folders.GetFolder | routes/folders.js:26-42 | an invalid id gives 400 `Invalid id`; a stored folder is returned; otherwise not found |
| Folders.CreateFolder | routes/folders.js:45-77 | a falsy name gives 400 ``Missing `name` in request body``; a duplicate gives 400 `The folder name already exists`; each writes nothing; otherwise exactly one ownerless folder is added and the reply is 201 with Location `http://<originalUrl>/<id>` |
| Folders.UpdateFolder | routes/folders.js:80-119 | the id is checked before the name; a missing folder is not found; a duplicate gives 400; otherwise only the name and update time of that folder change |
| Folders.DeleteFolder | routes/folders.js:122-139 | an invalid id gives 400 and writes nothing; otherwise the notes are unlinked from the folder, the folder is removed, the reply is 204 whether or not it existed, and resolving folder references stay resolving; the unlinked notes get the new update time |
| Tags.PullThenRemoveKeepsTagRefs | routes/tags.js:129-132 | pulling the id and then removing the tag leaves every note's tag references resolving |
| Tags.ListTags | routes/tags.js:9-22 | 200 with every tag, each once, in ascending name order |
| Tags.GetTagAsWritten | routes/tags.js:25-44 | an invalid id gives 400 `Invalid Tag id`; a stored tag is returned; a missing tag ends in the `err is not defined` exception, which has no status |
| Tags.GetTag | routes/tags.js:25-44 | as written, except that a missing tag is not found |
| Tags.CreateTagAsWritten | routes/tags.js:48-80 | a falsy name gives 400 ``Missing `name` in request body``; an array or object name is a cast error on `name`; every other body is refused by the schema on `userId`; the tags never change and the reply is never a 201 |
| Tags.CreateTag | routes/tags.js:48-80 | with the caller as owner, a tag is created exactly when the name casts and the caller has no tag of that name; a duplicate gives 400 `The tag name already exists`; Location is `http://<originalUrl>/<id>` |
| Tags.UpdateTagAsWritten | routes/tags.js:83-119 | the id is checked before the name; a duplicate gives 400 `The tag name already exists`; only the name and update time of the tag change; a missing tag ends in the `err is not defined` exception |
| Tags.UpdateTag | routes/tags.js:83-119 | as written, except that a missing tag is not found |
| Tags.DeleteTag | routes/tags.js:122-138 | an invalid id gives 400 and writes nothing; otherwise the id is pulled from every note's tags, every note gets the new update time, the tag is removed, the reply is 204, and resolving tag references stay resolving |

## Left out

- Authentication is not modelled. The JWT issue and verify steps and the passport strategy are left out, and the caller's id arrives as a parameter.
- Password hashing: `User.hashPassword` is a function parameter `hash`, treated as uninterpreted.
- Regular expressions: the case-insensitive `searchTerm` match is a predicate parameter `titleMatches`. A malformed pattern, which Mongo would reject, is not modelled.
- `populate('tags')` is not modelled; notes are returned with their tag ids.
- Clocks, id generation and the store's I/O are left out. Times and new ids are parameters, and timestamps are integers.
- Express's reaction to `next(err)` called more than once, and to answering after a reply was sent, is not modelled. The first `next(err)` is the reply.
- Races between requests are not modelled. For example, two registrations can both pass the count before either user is created.
- The application's error handler and the not-found handler are not part of this model. The HTTP status for an error without `status` is therefore left open.
- models/user.js, models/note.js and models/folder.js are not part of this model:
  - the user's JSON view is taken to show the id, username and full name;
  - folders are taken to have a unique (name, userId) index and to keep timestamps;
  - notes are taken to keep timestamps, which every update stamps, the
    `$unset` and `$pull` cascades included.
- Users.CreateAccount: the extra `reason` field of the username-taken object is not modelled.
- JSON numbers are integers here. Fractions and exponents are not modelled.
- Text lengths count characters, not UTF-16 code units.
- Ids: a 12-character id is cast through its character codes modulo 256, where bson reads the string's bytes.
- Casting.CastOid: Mongoose casts a number through its decimal text, so a number with 12 digits, such as `100000000000`, becomes an id; the model refuses every number in an id path.
- Casting.CastText: Mongoose casts an object with a string `_id` to that `_id`, in id paths and string paths alike; the model refuses every object.
- Http.StoreFailure: the messages of store errors are placeholders. Mongoose raises a `ValidationError` whose message names the model and lists every failing path, for example "Tag validation failed: userId: Path `userId` is required.", and a `CastError` or duplicate-key error with its own text.
- TagModel.SchemaError: reports one path, `name` before `userId`; Mongoose reports every failing path in one error.
- The JSON layout of replies is not modelled: a reply carries the record and its id. The tag schema's `toObject` options are modelled by TagModel.ToObject, but `res.json` serialises through `toJSON`, which those options do not set.
- Casting.CastEach: Mongoose's ObjectId cast passes a `null` element through as `null`, but a stored note here holds only ids, so a `null` element is refused. With `{"tags": [null]}`, `PUT /api/notes/:id` replies with the `tagsId` 400 in both. The source then still writes `tags: [null]`, while the model writes nothing. This is why Notes.NoticedTagsAreNotStored holds in the model.
- Casting.CastOidList: a `tags` of `null` is stored as `null` by Mongoose; the model stores it as no ids.
- Trim: its own contract gives only the length bound and the edges. That it cuts exactly the white space at the ends is the lemma Text.TrimCutsOnlySpace. The lemma is kept apart so that the registration proofs, which call Trim, stay small.
- Notes.CastUpdate and Notes.DraftNote: when several paths fail to cast, only the first failing path, in field order, is reported. Mongoose collects all of them in one error.
- Notes.CreateRejection: the check that the caller's id is valid can never fail, because the caller is a stored id.
- Query parameters are single strings. Repeated parameters, which Express turns into arrays, are not modelled.

## Findings

| source | as written | input that shows it | evidently intended | confidence | as-written member | corrected member |
|---|---|---|---|---|---|---|
| routes/tags.js:58-63 | the tag is created from `{name}` alone, but models/tag.js:7 requires `userId` | `POST /api/tags` with `{"name": "work"}` is refused on `userId`, and so is every body whose truthy name is not an array or object | the tag is created with `userId` set to the caller, as notes are | not executed | Tags.CreateTagAsWritten | Tags.CreateTag |
| routes/tags.js:37-39 | the not-found branch of GET assigns to an undeclared `err`, which throws a ReferenceError | `GET /api/tags/DOESNOTEXIST` on a store without that tag ends in `err is not defined` with no status | a valid id with no tag falls through to not-found, as in the folder handlers | not executed | Tags.GetTagAsWritten | Tags.GetTag |
| routes/tags.js:107-109 | the not-found branch of PUT assigns to an undeclared `err`, which throws a ReferenceError | `PUT /api/tags/DOESNOTEXIST` with `{"name": "work"}` on a store without that tag ends in `err is not defined` with no status | a valid id with no tag falls through to not-found | not executed | Tags.UpdateTagAsWritten | Tags.UpdateTag |
