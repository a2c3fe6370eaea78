/**
  What the consumer and producer builders share: the routing table that
  `array_column($routing, <target>, 'name')` makes of the validated routing
  entries, and the broker options as name/value strings.
*/
module SectionBuilder {
  import opened Wrappers
  import opened OrderedMap
  import opened PhpValue
  import SectionValidator

  /** Broker options whose keys and values are all strings, as the validators leave them. */
  predicate StringEntries(es: seq<(Key, Value)>) {
    forall i :: 0 <= i < |es| ==> es[i].0.StrKey? && es[i].1.Str?
  }

  function StringPairs(es: seq<(Key, Value)>): (r: seq<(string, string)>)
    requires StringEntries(es)
    ensures |r| == |es|
    ensures forall i :: 0 <= i < |es| ==> es[i] == (StrKey(r[i].0), Str(r[i].1))
  {
    seq(|es|, i requires 0 <= i < |es| => (es[i].0.s, es[i].1.s))
  }

  /** Reading the options as strings keeps their names. */
  lemma StringPairsKeys(es: seq<(Key, Value)>, k: string)
    requires StringEntries(es)
    ensures StrKey(k) in Keys(es) <==> k in Keys(StringPairs(es))
  {
    var r := StringPairs(es);
    if StrKey(k) in Keys(es) {
      var i :| 0 <= i < |es| && Keys(es)[i] == StrKey(k);
      assert Keys(r)[i] == k;
    }
    if k in Keys(r) {
      var i :| 0 <= i < |r| && Keys(r)[i] == k;
      assert Keys(es)[i] == StrKey(k);
    }
  }

  /** Name/value strings written out as a PHP array of string options. */
  function Entries(pairs: seq<(string, string)>): (es: seq<(Key, Value)>)
    ensures |es| == |pairs| && StringEntries(es) && StringPairs(es) == pairs
    ensures forall i :: 0 <= i < |pairs| ==> es[i] == (StrKey(pairs[i].0), Str(pairs[i].1))
  {
    seq(|pairs|, i requires 0 <= i < |pairs| => (StrKey(pairs[i].0), Str(pairs[i].1)))
  }

  /**
    `array_column($routing, <target>, 'name')`: entry by entry, the entry's
    name is mapped to its target, so a later entry with the same name
    overwrites the earlier one in place. Entries without both strings do not
    survive validation and contribute nothing.
  */
  function RoutingMap(routes: seq<(Key, Value)>, target: string): seq<(string, string)>
  {
    if routes == [] then []
    else
      var acc := RoutingMap(routes[..|routes| - 1], target);
      match SectionValidator.RouteFields(routes[|routes| - 1].1, target)
      case Some((n, t)) => Put(acc, n, t)
      case None => acc
  }

  /** The target of the last entry named `n`, scanning from the end. */
  function LastTarget(routes: seq<(Key, Value)>, target: string, n: string): Option<string> {
    if routes == [] then None
    else
      match SectionValidator.RouteFields(routes[|routes| - 1].1, target)
      case Some((m, t)) => if m == n then Some(t) else LastTarget(routes[..|routes| - 1], target, n)
      case None => LastTarget(routes[..|routes| - 1], target, n)
  }

  /** Later entries win: the table maps each name to the target of the last entry with that name. */
  lemma {:induction false} GetRoutingMap(routes: seq<(Key, Value)>, target: string, n: string)
    ensures Get(RoutingMap(routes, target), n) == LastTarget(routes, target, n)
    decreases |routes|
  {
    if routes != [] {
      var init := routes[..|routes| - 1];
      GetRoutingMap(init, target, n);
      match SectionValidator.RouteFields(routes[|routes| - 1].1, target)
      case Some((m, t)) => GetPut(RoutingMap(init, target), m, t, n);
      case None =>
    }
  }

  /** The table holds each name once. */
  lemma {:induction false} RoutingMapUnique(routes: seq<(Key, Value)>, target: string)
    ensures UniqueKeys(RoutingMap(routes, target))
    decreases |routes|
  {
    if routes != [] {
      var init := routes[..|routes| - 1];
      RoutingMapUnique(init, target);
      match SectionValidator.RouteFields(routes[|routes| - 1].1, target)
      case Some((m, t)) => PutUnique(RoutingMap(init, target), m, t);
      case None =>
    }
  }
}
