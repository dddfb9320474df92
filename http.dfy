/**
 * What a handler does with a request: answer it (`res.status(..).json(..)`,
 * `res.sendStatus(..)`), pass an error to the error handler (`next(err)`),
 * or pass the request on to the not-found handler (`next()`).
 */
module Http {
  import opened Wrappers
  import opened ObjectIds
  import opened Records
  import opened TagModel

  /**
   * The error object handed to `next(err)`. `status` is set by the handlers
   * for the errors they recognise; store and runtime errors carry none, and
   * the application's error handler decides what the client sees for them.
   */
  datatype Error = Error(status: Option<int>, code: Option<int>, message: string, location: Option<string>)

  /** `const err = new Error(message); err.status = 400;` */
  function BadRequest(message: string): Error
  {
    Error(Some(400), None, message, None)
  }

  /** The error a refused store write raises; only a unique-index violation carries code 11000. */
  function StoreFailure(e: StoreError): (r: Error)
    ensures r.status.None?
    ensures r.code == Some(11000) <==> e.DuplicateKey?
  {
    match e
    case DuplicateKey => Error(None, Some(11000), "E11000 duplicate key error", None)
    case ValidationFailed(path) => Error(None, None, "Path `" + path + "` is required.", None)
    case CastFailed(path) => Error(None, None, "Cast failed for value at path \"" + path + "\"", None)
  }

  /** A JavaScript exception thrown inside a handler. */
  function RuntimeError(message: string): Error
  {
    Error(None, None, message, None)
  }

  /** The `.catch` of the create and update handlers: code 11000 becomes a 400 with the given message. */
  function TranslateDuplicate(e: StoreError, message: string): (r: Error)
    ensures e.DuplicateKey? ==> r == BadRequest(message)
    ensures !e.DuplicateKey? ==> r == StoreFailure(e) && r.status.None?
  {
    if StoreFailure(e).code == Some(11000) then BadRequest(message) else StoreFailure(e)
  }

  /** A JSON response body. The user view has no password field. */
  datatype Payload =
    | UserJson(id: Oid, username: string, fullname: Option<string>)
    | NoteJson(id: Oid, note: Note)
    | NoteRows(notes: seq<(Oid, Note)>)
    | FolderJson(id: Oid, folder: Folder)
    | FolderRows(folders: seq<(Oid, Folder)>)
    | TagJson(id: Oid, tag: Tag)
    | TagRows(tags: seq<(Oid, Tag)>)
    | ValidationJson(message: string, location: string)

  datatype Reply =
    | Json(status: int, location: Option<string>, payload: Payload)
    | SendStatus(status: int)
    | Next(err: Error)
    | NextRoute

  /** `res.status(422).json({code: 422, reason: 'ValidationError', message, location})`. */
  function Invalid(message: string, location: string): Reply
  {
    Json(422, None, ValidationJson(message, location))
  }
}
