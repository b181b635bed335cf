/**
 * The part of Kubernetes object metadata that the conversion touches:
 * the annotation map of an object.
 */
module Metav1 {
  import opened Wrappers

  /**
   * A Go `map[string]string`. Go maps are references: two objects whose
   * annotation fields hold the same map see each other's inserts and deletes,
   * so the map is an object of its own here.
   */
  class AnnotationMap {
    var entries: map<string, string>

    constructor (entries: map<string, string>)
      ensures this.entries == entries
    {
      this.entries := entries;
    }
  }

  /** What `GetAnnotations` yields, as a value: `None` for a nil map. */
  function Contents(a: AnnotationMap?): (r: Option<map<string, string>>)
    reads a
    ensures r.None? <==> a == null
  {
    if a == null then None else Some(a.entries)
  }

  /** What reading a possibly nil map sees: a nil map behaves as an empty one. */
  function Entries(a: Option<map<string, string>>): (r: map<string, string>)
  {
    if a.Some? then a.value else map[]
  }
}
