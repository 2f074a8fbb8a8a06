/** Vocabulary shared by every component: optional values, results that may be an
    exception, and decoded JSON. */
module Basics {
  datatype Option<+T> = None | Some(value: T)

  // What a Python call does: return normally, or leave by an exception.
  datatype Result<+T, +E> = Ok(value: T) | Raise(error: E)

  datatype Json =
    | Null
    | Bool(b: bool)
    | Num(n: int)
    | Str(s: string)
    | Arr(items: seq<Json>)
    | Obj(fields: map<string, Json>)

  // dict.get: an absent key and an explicit null are both None.
  function Get(fields: map<string, Json>, key: string): Json {
    if key in fields then fields[key] else Null
  }

  predicate Truthy(j: Json) {
    match j
    case Null => false
    case Bool(b) => b
    case Num(n) => n != 0
    case Str(s) => s != ""
    case Arr(items) => items != []
    case Obj(fields) => fields != map[]
  }

  function Max(a: int, b: int): int { if a < b then b else a }

  function Min(a: int, b: int): int { if a < b then a else b }
}

/** A DB-API connection to a transactional store of type `D`. A statement is its effect on
    the working copy. Which statements and commits fail is the environment's choice, fixed by
    `fails`; the store discards the open transaction when one does. */
module Connections {
  class Connection<D> {
    const fails: nat -> bool
    var steps: nat
    var committed: D
    var working: D
    // Every state other connections could ever have seen, oldest first.
    ghost var log: seq<D>

    ghost predicate Valid()
      reads this
    {
      |log| > 0 && log[|log| - 1] == committed
    }

    // No statement of an open transaction is pending.
    ghost predicate Idle()
      reads this
    {
      Valid() && working == committed
    }

    // No statement and no commit ever fails.
    ghost predicate Reliable() { forall n: nat :: !fails(n) }

    constructor (initial: D, fails: nat -> bool)
      ensures Idle() && committed == initial && log == [initial] && this.fails == fails && steps == 0
    {
      this.fails := fails;
      steps, committed, working, log := 0, initial, initial, [initial];
    }

    method Execute(effect: D) returns (ok: bool)
      requires Valid()
      modifies this
      ensures Valid() && committed == old(committed) && log == old(log)
      ensures steps == old(steps) + 1 && ok == !fails(old(steps))
      ensures working == if ok then effect else committed
    {
      ok := !fails(steps);
      steps := steps + 1;
      working := if ok then effect else committed;
    }

    method Commit() returns (ok: bool)
      requires Valid()
      modifies this
      ensures Idle() && steps == old(steps) + 1 && ok == !fails(old(steps))
      ensures committed == if ok then old(working) else old(committed)
      ensures log == if ok then old(log) + [committed] else old(log)
    {
      ok := !fails(steps);
      steps := steps + 1;
      if ok {
        committed := working;
        log := log + [committed];
      } else {
        working := committed;
      }
    }

    method Rollback()
      requires Valid()
      modifies this
      ensures Idle() && committed == old(committed) && log == old(log) && steps == old(steps)
    {
      working := committed;
    }
  }
}
