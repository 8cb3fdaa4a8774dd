/**
 * The importer registry and resolver: `get_instances` makes one instance of
 * every importer class `get_all` reports, and `find_importer` probes those
 * instances in order and returns the first whose `match` accepts the path.
 *
 * Importers are polymorphic in the source. Here the instance type is a type
 * parameter `I`, and `matches(i, path)` stands for `i.match(path)`.
 */
module Importers {
  import opened Wrappers

  type Path = string

  /**
   * The position of the first instance whose probe accepts `path`, or None
   * when none does. Earlier matches win; later ones are never considered.
   */
  function FirstMatch<I>(instances: seq<I>, matches: (I, Path) -> bool, path: Path): (r: Option<nat>)
    ensures r.Some? ==> r.value < |instances| && matches(instances[r.value], path)
    ensures r.Some? ==> forall j :: 0 <= j < r.value ==> !matches(instances[j], path)
    ensures r.None? ==> forall j :: 0 <= j < |instances| ==> !matches(instances[j], path)
  {
    if |instances| == 0 then None
    else if matches(instances[0], path) then Some(0)
    else match FirstMatch(instances[1..], matches, path)
      case None => None
      case Some(k) => Some(k + 1)
  }

  /**
   * find_importer(path) over the instances the registry produced: scans them
   * in order and stops at the first one that matches. The result is the
   * position of that very instance in `instances`.
   */
  method FindImporter<I>(instances: seq<I>, matches: (I, Path) -> bool, path: Path) returns (r: Option<nat>)
    ensures r.Some? ==> r.value < |instances| && matches(instances[r.value], path)
    ensures r.Some? ==> forall j :: 0 <= j < r.value ==> !matches(instances[j], path)
    ensures r.None? ==> forall j :: 0 <= j < |instances| ==> !matches(instances[j], path)
    ensures r == FirstMatch(instances, matches, path)
  {
    var i := 0;
    while i < |instances|
      invariant i <= |instances|
      invariant forall j :: 0 <= j < i ==> !matches(instances[j], path)
    {
      if matches(instances[i], path) {
        return Some(i);
      }
      i := i + 1;
    }
    return None;
  }

  /** When exactly one instance matches, that one is found. */
  lemma FirstMatchUnique<I>(instances: seq<I>, matches: (I, Path) -> bool, path: Path, d: nat)
    requires d < |instances| && matches(instances[d], path)
    requires forall j :: 0 <= j < |instances| && j != d ==> !matches(instances[j], path)
    ensures FirstMatch(instances, matches, path) == Some(d)
  {
  }

  /** Whatever matches, the winner is never later than any matching instance. */
  lemma FirstMatchNoLaterThan<I>(instances: seq<I>, matches: (I, Path) -> bool, path: Path, d: nat)
    requires d < |instances| && matches(instances[d], path)
    ensures FirstMatch(instances, matches, path).Some?
    ensures FirstMatch(instances, matches, path).value <= d
  {
  }

  /**
   * Registry order is a priority list: importers appended after a prefix
   * (external plugins after the built-ins) never change a match found in the
   * prefix, and are consulted only when nothing in the prefix matches.
   */
  lemma {:induction false} FirstMatchAppend<I>(front: seq<I>, back: seq<I>, matches: (I, Path) -> bool, path: Path)
    ensures FirstMatch(front, matches, path).Some? ==>
      FirstMatch(front + back, matches, path) == FirstMatch(front, matches, path)
    ensures FirstMatch(front, matches, path).None? ==>
      FirstMatch(front + back, matches, path) ==
        match FirstMatch(back, matches, path)
        case None => None
        case Some(k) => Some(|front| + k)
  {
    if |front| > 0 {
      assert (front + back)[0] == front[0];
      assert (front + back)[1..] == front[1..] + back;
      FirstMatchAppend(front[1..], back, matches, path);
    } else {
      assert front + back == back;
    }
  }

  /** The resolver test: two importers, the first declines, the second
      accepts; the second one itself is returned. */
  lemma ResolverTest()
    ensures FirstMatch([0, 1], (i: int, p: Path) => i == 1, "mockpath") == Some(1)
  {
  }

  /**
   * get_instances(): one instance per importer class, in the order
   * `get_all` lists the classes; `instantiate(c)` stands for `c()`.
   */
  function GetInstances<C, I>(classes: seq<C>, instantiate: C -> I): (r: seq<I>)
    ensures |r| == |classes|
    ensures forall k :: 0 <= k < |classes| ==> r[k] == instantiate(classes[k])
  {
    if |classes| == 0 then [] else [instantiate(classes[0])] + GetInstances(classes[1..], instantiate)
  }

  /** Every class `get_all` reports has its instance among the instances. */
  lemma EachClassInstantiated<C, I>(classes: seq<C>, instantiate: C -> I)
    ensures forall c :: c in classes ==> instantiate(c) in GetInstances(classes, instantiate)
  {
  }

  /** The registry test: three classes give three instances, each class's
      own among them. */
  lemma RegistryTest()
    ensures |GetInstances([10, 20, 30], (c: int) => c + 1)| == 3
    ensures 11 in GetInstances([10, 20, 30], (c: int) => c + 1)
    ensures 21 in GetInstances([10, 20, 30], (c: int) => c + 1)
    ensures 31 in GetInstances([10, 20, 30], (c: int) => c + 1)
  {
  }

  /** The process-wide debug-level logging sink: the messages it received. */
  class DebugSink {
    var messages: seq<string>

    constructor ()
      ensures messages == []
    {
      messages := [];
    }

    /** logging.debug(message): records the message once, verbatim. */
    method Debug(message: string)
      modifies this
      ensures messages == old(messages) + [message]
    {
      messages := messages + [message];
    }
  }

  /** BaseImporter.log(message): forwards the message, verbatim and exactly
      once, to the debug sink, and never fails. */
  method Log(sink: DebugSink, message: string)
    modifies sink
    ensures sink.messages == old(sink.messages) + [message]
  {
    sink.Debug(message);
  }
}
