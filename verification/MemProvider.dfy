/** The in-memory provider of named objects. Every operation holds its lock throughout. */
module MemProvider {
  import opened Common
  import opened Errors

  datatype Object = Object(id: int, name: string)

  type Objects = map<string, Object>

  const MIN_ID := 1000

  function ListOf(objects: Objects, name: string): seq<Object> {
    if name in objects then [objects[name]] else []
  }

  /** The answer to a request to create an object. */
  function CreateAnswer(objects: Objects, name: string): Option<Error> {
    if name in objects then Some(Other("key exists already")) else None
  }

  /** Objects stand under their names, and no two share an ID. */
  predicate WellKept(objects: Objects, lastId: int) {
    && (forall n | n in objects :: objects[n].name == n && objects[n].id <= lastId)
    && (forall n, m | n in objects && m in objects && n != m :: objects[n].id != objects[m].id)
  }

  class MemProvider {
    var objects: Objects
    var lastId: int

    /** A new provider is empty; its IDs begin at a random number. */
    constructor (random: nat)
      ensures objects == map[] && lastId >= MIN_ID && WellKept(objects, lastId)
    {
      objects, lastId := map[], MIN_ID + random;
    }

    method Create(name: string) returns (err: Option<Error>)
      modifies this
      ensures err == CreateAnswer(old(objects), name)
      ensures err.Some? ==> objects == old(objects) && lastId == old(lastId)
      ensures err.None? ==> objects == old(objects)[name := Object(lastId, name)] && lastId == old(lastId) + 1
      ensures WellKept(old(objects), old(lastId)) ==> WellKept(objects, lastId)
    {
      if name in objects {
        return Some(Other("key exists already"));
      }
      lastId := lastId + 1;
      objects := objects[name := Object(lastId, name)];
      return None;
    }

    method ListByName(name: string) returns (objs: seq<Object>)
      ensures objs == ListOf(objects, name)
    {
      if name in objects {
        return [objects[name]];
      }
      return [];
    }
  }
}
