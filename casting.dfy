/**
 * How the store casts body values to the types of the note, folder and tag
 * schemas before it writes them. A value that does not cast is refused with
 * a cast error naming the path.
 */
module Casting {
  import opened Wrappers
  import opened Json
  import opened Text
  import opened ObjectIds
  import opened Records

  /** A string-typed path: `null` clears it, strings, numbers and booleans are rendered, arrays and objects are refused. */
  function CastText(v: Value, path: string): (r: Result<Option<string>, StoreError>)
    ensures r.Failure? <==> v.Arr? || v.Obj?
    ensures r.Failure? ==> r.error == CastFailed(path)
    ensures r.Success? ==> (r.value.None? <==> v.Null?)
    ensures v.Str? ==> r == Success(Some(v.s))
    ensures v.Num? ==> r == Success(Some(IntToString(v.n)))
    ensures v.Bool? ==> r == Success(Some(if v.b then "true" else "false"))
    ensures Truthy(v) && r.Success? ==> r.value.Some? && r.value.value != ""
  {
    match v
    case Null => Success(None)
    case Bool(b) => Success(Some(if b then "true" else "false"))
    case Num(n) => Success(Some(IntToString(n)))
    case Str(s) => Success(Some(s))
    case _ => Failure(CastFailed(path))
  }

  /** A string path given a truthy value, as the handlers do with a name: the text is never empty. */
  function CastName(v: Value, path: string): (r: Result<string, StoreError>)
    requires Truthy(v)
    ensures r.Failure? <==> v.Arr? || v.Obj?
    ensures r.Failure? ==> r.error == CastFailed(path)
    ensures r.Success? ==> r.value != "" && CastText(v, path) == Success(Some(r.value))
    ensures v.Str? ==> r == Success(v.s)
  {
    var c := CastText(v, path);
    if c.Failure? then Failure(c.error) else Success(c.value.value)
  }

  /** An ObjectId-typed path: `null` clears it, a valid id string is cast, anything else is refused. */
  function CastOid(v: Value, path: string): (r: Result<Option<Oid>, StoreError>)
    ensures r.Success? <==> v.Null? || (v.Str? && IsValidId(v.s))
    ensures r.Failure? ==> r.error == CastFailed(path)
    ensures r.Success? && v.Str? ==> r.value == Some(ToOid(v.s))
    ensures r.Success? && v.Null? ==> r.value == None
  {
    match v
    case Null => Success(None)
    case Str(s) => if IsValidId(s) then Success(Some(ToOid(s))) else Failure(CastFailed(path))
    case _ => Failure(CastFailed(path))
  }

  /** Each element of an array of ObjectIds: every element must be a valid id string. */
  function CastEach(items: seq<Value>, path: string): (r: Result<seq<Oid>, StoreError>)
    ensures r.Success? <==> forall i :: 0 <= i < |items| ==> items[i].Str? && IsValidId(items[i].s)
    ensures r.Failure? ==> r.error == CastFailed(path)
    ensures r.Success? ==> |r.value| == |items|
    ensures r.Success? ==> forall i :: 0 <= i < |items| ==> items[i].Str? && IsValidId(items[i].s) && r.value[i] == ToOid(items[i].s)
  {
    if items == [] then Success([])
    else if !(items[0].Str? && IsValidId(items[0].s)) then Failure(CastFailed(path))
    else
      var rest := CastEach(items[1..], path);
      if rest.Failure? then rest
      else Success([ToOid(items[0].s)] + rest.value)
  }

  /** An array-of-ObjectId path: `null` stores no ids, a non-array value is cast as a one-element array. */
  function CastOidList(v: Value, path: string): (r: Result<seq<Oid>, StoreError>)
    ensures r.Success? <==>
      v.Null? || (v.Str? && IsValidId(v.s))
      || (v.Arr? && forall i :: 0 <= i < |v.items| ==> v.items[i].Str? && IsValidId(v.items[i].s))
    ensures r.Failure? ==> r.error == CastFailed(path)
    ensures r.Success? && v.Null? ==> r.value == []
    ensures r.Success? && v.Str? ==> r.value == [ToOid(v.s)]
    ensures r.Success? && v.Arr? ==>
      (|r.value| == |v.items| && forall i :: 0 <= i < |v.items| ==> v.items[i].Str? && r.value[i] == ToOid(v.items[i].s))
  {
    match v
    case Null => Success([])
    case Arr(items) => CastEach(items, path)
    case _ => CastEach([v], path)
  }
}
