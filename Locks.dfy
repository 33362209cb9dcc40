/**
 * The lock-search filters of `git lfs locks` (locksFlags.Filters in
 * commands/command_locks.go): the flags a user gave, turned into the list
 * of filters sent with a lock search.
 */
module Locks {

  /** One search filter: a property and the value it must have. */
  datatype Filter = Filter(property: string, value: string)

  /**
   * A list of filters that asks for exactly the given path and id: one
   * filter per non-empty field, the path filter first.
   */
  ghost predicate FiltersFor(path: string, id: string, filters: seq<Filter>)
  {
    && |filters| == (if path != "" then 1 else 0) + (if id != "" then 1 else 0)
    && (path != "" ==> filters[0] == Filter("path", path))
    && (id != "" ==> filters[|filters| - 1] == Filter("id", id))
  }

  /** Only one list asks for a given path and id, so nothing else can shape it. */
  lemma FiltersForIsUnique(path: string, id: string, a: seq<Filter>, b: seq<Filter>)
    requires FiltersFor(path, id, a) && FiltersFor(path, id, b)
    ensures a == b
  {
  }

  class LocksFlags {
    /** Filter locks to this path, when non-empty. */
    var path: string
    /** Filter locks to this id, when non-empty. */
    var id: string
    /** Where a paginated search resumes; not a filter. */
    var cursor: string
    /** The most results to return; not a filter. */
    var limit: int

    /**
     * Filters (command_locks.go:64-75): a path filter when a path was given,
     * then an id filter when an id was given. The result depends on path and
     * id alone, and the flags are left as they were.
     */
    method Filters() returns (filters: seq<Filter>)
      ensures FiltersFor(path, id, filters)
      ensures path == "" && id == "" ==> filters == []
      ensures |filters| == (if path != "" then 1 else 0) + (if id != "" then 1 else 0) && |filters| <= 2
      ensures forall i :: 0 <= i < |filters| ==>
        (filters[i].property == "path" && filters[i].value == path && path != "" && i == 0)
        || (filters[i].property == "id" && filters[i].value == id && id != "" && i == |filters| - 1)
      ensures path != "" ==> filters[0] == Filter("path", path)
      ensures id != "" ==> filters[|filters| - 1] == Filter("id", id)
    {
      filters := [];
      if path != "" {
        filters := filters + [Filter("path", path)];
      }
      if id != "" {
        filters := filters + [Filter("id", id)];
      }
    }
  }
}
