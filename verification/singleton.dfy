/**
 * The `singleton` decorator of singleton.py: the wrapper it returns keeps a
 * dictionary from the decorated class to its one instance. Constructing an
 * instance is modelled by the function `make` from the call's arguments.
 */
module Singletons {

  class Singleton<K(==), A, V> {
    /** The decorated class, the cache key. */
    const cls: K
    /** What calling the class with the given arguments constructs. */
    const make: A -> V
    /** The closure's `__instance` dictionary. */
    var instance: map<K, V>
    /** How many times the class has been constructed. */
    ghost var constructions: nat

    /** The cache holds at most the decorated class, constructed once at most. */
    ghost predicate Valid()
      reads this
    {
      instance.Keys <= {cls} && constructions == |instance.Keys|
    }

    /** Decorating a class starts with an empty cache. */
    constructor (cls: K, make: A -> V)
      ensures Valid()
      ensures this.cls == cls && this.make == make
      ensures instance == map[] && constructions == 0
    {
      this.cls := cls;
      this.make := make;
      instance := map[];
      constructions := 0;
    }

    /**
     * A call to the decorated class: the first one constructs and caches an
     * instance from its arguments, later ones return the cached instance and
     * ignore their arguments.
     */
    method Call(args: A) returns (v: V)
      requires Valid()
      modifies this
      ensures Valid()
      ensures instance.Keys == {cls} && v == instance[cls]
      ensures cls !in old(instance) ==> v == make(args) && constructions == 1
      ensures cls in old(instance) ==> instance == old(instance) && constructions == old(constructions)
    {
      if cls !in instance {
        instance := instance[cls := make(args)];
        constructions := constructions + 1;
      }
      v := instance[cls];
    }
  }

  /** Two calls through one decorated class yield the instance built by the first. */
  method CallTwice<K(==), A, V>(cls: K, make: A -> V, first: A, second: A) returns (v1: V, v2: V)
    ensures v1 == make(first) && v2 == v1
  {
    var s := new Singleton(cls, make);
    v1 := s.Call(first);
    v2 := s.Call(second);
  }
}
