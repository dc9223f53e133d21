/**
 * What the post-processors read from the class path: class-file resources
 * found by a location pattern, and the metadata read from each without
 * loading the class. Resolving a pattern and reading a class file are I/O
 * and may fail; a failure is the `IOException` the post-processors catch.
 */
module ClassPath {
  import opened Wrappers

  /** The metadata of one class file: its name, the annotations present on
      it, and the annotations present on those annotations. */
  datatype ScannedClass = ScannedClass(
    className: string,
    annotationTypes: set<string>,
    metaAnnotationTypes: set<string>)

  /** A resource the resolver found; reading its metadata may fail. */
  datatype Resource = ClassFile(metadata: ScannedClass) | Unreadable

  /** The resources matching a location pattern, in the resolver's order,
      or `None` when resolving the pattern fails. */
  type ResourceResolver = string -> Option<seq<Resource>>

  /** How many resources are read before the first one that cannot be. */
  function ReadablePrefix(rs: seq<Resource>): (n: nat)
    ensures n <= |rs|
    ensures forall i :: 0 <= i < n ==> rs[i].ClassFile?
    ensures n < |rs| ==> rs[n].Unreadable?
  {
    if rs == [] || rs[0].Unreadable? then 0 else 1 + ReadablePrefix(rs[1..])
  }

  /** The first unreadable resource after a readable run ends the prefix. */
  lemma ReadablePrefixEnds(rs: seq<Resource>, j: int)
    requires 0 <= j < |rs| && rs[j].Unreadable?
    requires forall k :: 0 <= k < j ==> rs[k].ClassFile?
    ensures ReadablePrefix(rs) == j
  {
  }

  /** `String.endsWith`. */
  predicate EndsWith(s: string, suffix: string)
  {
    |suffix| <= |s| && s[|s| - |suffix|..] == suffix
  }
}
