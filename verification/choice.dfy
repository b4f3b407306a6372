/** Choosing where the program leaves the order open. */
module Choice {

  /** Any element of a set: a thread pool's or a device's choice. */
  method AnyOf<T(==)>(s: set<T>) returns (x: T)
    requires s != {}
    ensures x in s
  {
    x :| x in s;
  }
}
