/**
 * Flyweight.ts: a `FlyweightFactory` memoises one `ConcreteFlyweight` per key;
 * the flyweight's shared state is the key it was created for, and its
 * `operation` logs the shared and the unshared state together.
 */
module Flyweight {

  /** A console line of `operation`: "Shared state: s, Unshared state: u". */
  datatype Line = Operation(shared: string, unshared: string)

  function Text(l: Line): string {
    "Shared state: " + l.shared + ", Unshared state: " + l.unshared
  }

  class ConcreteFlyweight {
    const sharedState: string

    constructor (sharedState: string)
      ensures this.sharedState == sharedState
    {
      this.sharedState := sharedState;
    }

    /** `operation(state)`: logs this flyweight's shared state beside `state`. */
    method DoOperation(state: string) returns (out: seq<Line>)
      ensures out == [Operation(sharedState, state)]
    {
      out := [Operation(sharedState, state)];
    }
  }

  class FlyweightFactory {
    var flyweights: map<string, ConcreteFlyweight>

    /** Every stored flyweight carries the key it is stored under. */
    ghost predicate Valid()
      reads this
    {
      forall k :: k in flyweights ==> flyweights[k].sharedState == k
    }

    constructor ()
      ensures Valid() && flyweights == map[]
    {
      flyweights := map[];
    }

    /**
     * `getFlyweight(key)`: the flyweight stored under `key`, created (with
     * shared state `key`) and stored first when there is none. A present
     * key leaves the table as it was; a missing one adds just that entry,
     * so no entry is ever overwritten and other keys are untouched.
     */
    method GetFlyweight(key: string) returns (fw: ConcreteFlyweight)
      requires Valid()
      modifies this
      ensures Valid()
      ensures fw.sharedState == key
      ensures key in flyweights && flyweights[key] == fw
      ensures key in old(flyweights) ==> fw == old(flyweights[key]) && flyweights == old(flyweights)
      ensures key !in old(flyweights) ==> fresh(fw) && flyweights == old(flyweights)[key := fw]
    {
      if key !in flyweights {
        var created := new ConcreteFlyweight(key);
        flyweights := flyweights[key := created];
      }
      fw := flyweights[key];
    }
  }

  /**
   * The driver: 'key1' twice, then 'key2'. The two 'key1' requests give the
   * same object, 'key2' another one, and the three operations log
   * key1/state1, key1/state2, key2/state3.
   */
  method Scenario() returns (same: bool, distinct: bool, out: seq<Line>)
    ensures same && distinct
    ensures out == [Operation("key1", "state1"), Operation("key1", "state2"),
                    Operation("key2", "state3")]
  {
    var factory := new FlyweightFactory();
    var flyweight1 := factory.GetFlyweight("key1");
    var out1 := flyweight1.DoOperation("state1");
    var flyweight2 := factory.GetFlyweight("key1");
    var out2 := flyweight2.DoOperation("state2");
    var flyweight3 := factory.GetFlyweight("key2");
    var out3 := flyweight3.DoOperation("state3");
    same := flyweight1 == flyweight2;
    distinct := flyweight1 != flyweight3;
    out := out1 + out2 + out3;
  }

  /** The console text of the driver's first line; the other two differ only in the states. */
  lemma ScenarioText()
    ensures Text(Operation("key1", "state1")) == "Shared state: key1, Unshared state: state1"
  {
  }

  // The table as the source writes it: `flyweights` is an object literal `{}`,
  // so `this.flyweights[key]` also finds what every object inherits from
  // `Object.prototype`. All of those are truthy, so for such a key the lookup
  // is taken as a hit and the inherited member is returned instead of a new
  // flyweight, and nothing is stored.

  /** The properties an object literal inherits from `Object.prototype`. */
  const ObjectPrototypeKeys: set<string> :=
    {"constructor", "hasOwnProperty", "isPrototypeOf", "propertyIsEnumerable",
     "toLocaleString", "toString", "valueOf", "__proto__",
     "__defineGetter__", "__defineSetter__", "__lookupGetter__", "__lookupSetter__"}

  /** What `getFlyweight` hands back: a flyweight with this shared state, or an inherited member. */
  datatype Found = Flyweight(sharedState: string) | InheritedMember(name: string)

  /**
   * `getFlyweight` over an object-literal table, on values: the table maps each
   * own key to the shared state of the flyweight stored there.
   */
  function GetFlyweightAsWritten(table: map<string, string>, key: string): (Found, map<string, string>) {
    if key in table then (Flyweight(table[key]), table)
    else if key in ObjectPrototypeKeys then (InheritedMember(key), table)
    else (Flyweight(key), table[key := key])
  }

  /**
   * On a fresh factory, `getFlyweight("toString")` returns
   * `Object.prototype.toString` and stores nothing; calling `operation` on it
   * then fails.
   */
  lemma AsWrittenToStringIsNotAFlyweight()
    ensures GetFlyweightAsWritten(map[], "toString") == (InheritedMember("toString"), map[])
  {
    assert "toString" in ObjectPrototypeKeys;
  }

  /**
   * For every key outside `Object.prototype`, the as-written lookup does what
   * `FlyweightFactory.GetFlyweight` does: a flyweight for that key, stored once.
   */
  lemma AsWrittenAgreesOffPrototype(table: map<string, string>, key: string)
    requires forall k :: k in table ==> table[k] == k
    requires key !in ObjectPrototypeKeys
    ensures GetFlyweightAsWritten(table, key).0 == Flyweight(key)
    ensures GetFlyweightAsWritten(table, key).1 == table[key := key]
  {
  }
}
