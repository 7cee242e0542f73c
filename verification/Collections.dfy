/** Choosing from unordered collections. */
module Collections {
  /** Some element of a set: the next one in an iteration order nobody promises. */
  method Pick<T>(s: set<T>) returns (x: T)
    requires s != {}
    ensures x in s
  {
    x :| x in s;
  }

  ghost function SomeOf<T>(s: set<T>): (x: T)
    requires s != {}
    ensures x in s
  {
    var y :| y in s; y
  }
}
