/** Values shared by every component: identifiers, JSON trees and results.

    Identifiers that the program derives by hashing are constructor terms, so two of
    them are equal exactly when everything that was hashed is equal. */
module Values {

  datatype Option<+T> = None | Some(value: T)

  datatype Result<+T, +E> = Ok(value: T) | Err(error: E)

  /** `Text` is an identifier chosen by a caller; `Digest` is one derived from a domain
      name, an owning identifier and two indices. */
  datatype Id =
    | Text(text: string)
    | Digest(domain: string, owner: Id, i: nat, j: nat)

  /** A model reply: content blocks, the stop reason and the error detail. */
  datatype Reply = Reply(content: seq<Value>, stopReason: string, error: Value)

  /** Durable JSON payloads. `Name` is the text of an identifier and `Model` is a reply
      stored through the codec registry. */
  datatype Value =
    | Null
    | Bool(b: bool)
    | Int(n: int)
    | Str(s: string)
    | Name(id: Id)
    | List(items: seq<Value>)
    | Obj(fields: map<string, Value>)
    | Model(reply: Reply)

  /** `payload.get(key)`: absent keys read as Null, and so does anything not an object. */
  function Get(v: Value, key: string): Value {
    if v.Obj? && key in v.fields then v.fields[key] else Null
  }

  predicate AllObjects(items: seq<Value>) {
    forall k :: 0 <= k < |items| ==> items[k].Obj?
  }

  function Max(a: int, b: int): int { if a >= b then a else b }
}
