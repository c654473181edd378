/**
 * A java.nio.file.Path reduced to what the watcher uses: whether it is
 * absolute and its sequence of name elements.
 */
module Paths {

  datatype Path = Path(absolute: bool, names: seq<string>)

  /**
   * Path.resolve: an absolute `other` is returned as it is; otherwise its
   * names are appended to those of `base` (an empty `other` gives `base`).
   */
  function Resolve(base: Path, other: Path): (r: Path)
    ensures other.absolute ==> r == other
    ensures !other.absolute ==> r.absolute == base.absolute
    ensures !other.absolute ==> |r.names| == |base.names| + |other.names|
    ensures !other.absolute ==> r.names[..|base.names|] == base.names
    ensures !other.absolute ==> r.names[|base.names|..] == other.names
  {
    if other.absolute then other else Path(base.absolute, base.names + other.names)
  }

  /**
   * Two relative file names resolved against the same directory give the
   * same full path only if they are the same name: deduplicating on the
   * full path is deduplicating on the name the watch service reported.
   */
  lemma ResolveInjective(base: Path, a: Path, b: Path)
    requires !a.absolute && !b.absolute
    requires Resolve(base, a) == Resolve(base, b)
    ensures a == b
  {
  }
}
