/** packages/daemon/src/store/repositories/Repository.js: a behaviour
    subject holding an immutable value, whose `update` publishes a new value
    only when the updater changed something. */
module Repositories {

  class Repository<T(==)> {
    /** The subject's current value. */
    var value: T
    /** Every value the subject has published, the initial one first. */
    var emitted: seq<T>

    /** The current value is the last one published, and no publication
        repeats the one before it. */
    ghost predicate Valid()
      reads this
    {
      && |emitted| > 0
      && value == emitted[|emitted| - 1]
      && (forall i :: 0 < i < |emitted| ==> emitted[i] != emitted[i - 1])
    }

    constructor(init: T)
      ensures Valid()
      ensures value == init && emitted == [init]
    {
      value := init;
      emitted := [init];
    }

    /** The state after an update whose result is `v`: nothing happens when
        `v` is the current value, otherwise `v` becomes current and is
        published once. */
    twostate predicate UpdatedTo(new v: T)
      reads this
    {
      if v == old(value) then value == old(value) && emitted == old(emitted)
      else value == v && emitted == old(emitted) + [v]
    }

    /** `update(updater)`. */
    method Update(updater: T -> T)
      requires Valid()
      modifies this
      ensures Valid()
      ensures UpdatedTo(updater(old(value)))
    {
      var updated := updater(value);
      if updated != value {
        value := updated;
        emitted := emitted + [updated];
      }
    }
  }
}
