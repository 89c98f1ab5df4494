/** The example resource controller plugin
    (`ckanext/example_iresourcecontroller/plugin.py`): a `defaultdict(int)`
    that counts how often each of the seven resource hooks was called. */
module ResourceControllerPlugin {
  import opened PyValue

  /** The counter keys, one per hook, in the order the hooks are declared. */
  const Hooks: seq<string> := ["before_create", "after_create", "before_update", "after_update",
                               "before_delete", "after_delete", "before_show"]

  /** A `defaultdict(int)` read: a key never written reads as 0. */
  function Count(counter: map<string, int>, key: string): int {
    if key in counter then counter[key] else 0
  }

  /** `counter[key] += 1`. */
  function Bump(counter: map<string, int>, key: string): (r: map<string, int>)
    ensures r.Keys == counter.Keys + {key}
  {
    counter[key := Count(counter, key) + 1]
  }

  /** A bump adds one to its own key and changes no other. */
  lemma BumpOnlyItsKey(counter: map<string, int>, key: string, other: string)
    ensures Count(Bump(counter, key), other) == Count(counter, other) + if other == key then 1 else 0
  {
  }

  /** The sum of the counts of `keys`. */
  function Total(counter: map<string, int>, keys: seq<string>): int
    decreases |keys|
  {
    if keys == [] then 0 else Count(counter, keys[0]) + Total(counter, keys[1..])
  }

  /** A bump of one of (distinct) `keys` adds exactly one to their total. */
  lemma {:induction false} BumpTotal(counter: map<string, int>, keys: seq<string>, key: string)
    requires Distinct(keys)
    ensures Total(Bump(counter, key), keys) == Total(counter, keys) + if key in keys then 1 else 0
    decreases |keys|
  {
    if keys != [] {
      var rest := keys[1..];
      assert Distinct(rest) by {
        forall i, j | 0 <= i < j < |rest| ensures rest[i] != rest[j] {
          assert rest[i] == keys[i + 1] && rest[j] == keys[j + 1];
        }
      }
      BumpTotal(counter, rest, key);
      BumpOnlyItsKey(counter, key, keys[0]);
      assert key in keys <==> key == keys[0] || key in rest;
      forall j | 0 <= j < |rest| ensures rest[j] != keys[0] {
        assert rest[j] == keys[j + 1];
      }
    }
  }

  /** A count never goes down. */
  lemma BumpMonotone(counter: map<string, int>, key: string, other: string)
    ensures Count(Bump(counter, key), other) >= Count(counter, other)
  {
    BumpOnlyItsKey(counter, key, other);
  }

  lemma HooksDistinct()
    ensures Distinct(Hooks)
  {
  }

  class ExampleIResourceControllerPlugin {
    var counter: map<string, int>
    /** The number of hook calls since construction. */
    ghost var calls: nat

    /** Only hook keys are written, every count is non-negative, and together
        they count the calls. */
    ghost predicate Valid()
      reads this
    {
      && (forall k :: k in counter ==> k in Hooks && counter[k] >= 0)
      && Total(counter, Hooks) == calls
    }

    constructor ()
      ensures Valid() && calls == 0
      ensures forall k :: Count(counter, k) == 0
    {
      counter := map[];
      calls := 0;
      new;
      ZeroTotal(Hooks);
    }

    /** `self.counter[key] += 1`, the one statement of every hook. */
    method Increment(key: string)
      requires Valid() && key in Hooks
      modifies this
      ensures Valid() && calls == old(calls) + 1
      ensures counter == Bump(old(counter), key)
    {
      ghost var before := counter;
      counter := counter[key := Count(counter, key) + 1];
      calls := calls + 1;
      HooksDistinct();
      BumpTotal(before, Hooks, key);
    }

    method BeforeCreate(context: Value, resource: Value)
      requires Valid()
      modifies this
      ensures Valid() && calls == old(calls) + 1
      ensures counter == Bump(old(counter), "before_create")
    {
      Increment("before_create");
    }

    method AfterCreate(context: Value, resource: Value)
      requires Valid()
      modifies this
      ensures Valid() && calls == old(calls) + 1
      ensures counter == Bump(old(counter), "after_create")
    {
      Increment("after_create");
    }

    method BeforeUpdate(context: Value, current: Value, resource: Value)
      requires Valid()
      modifies this
      ensures Valid() && calls == old(calls) + 1
      ensures counter == Bump(old(counter), "before_update")
    {
      Increment("before_update");
    }

    method AfterUpdate(context: Value, resource: Value)
      requires Valid()
      modifies this
      ensures Valid() && calls == old(calls) + 1
      ensures counter == Bump(old(counter), "after_update")
    {
      Increment("after_update");
    }

    method BeforeDelete(context: Value, resource: Value, resources: Value)
      requires Valid()
      modifies this
      ensures Valid() && calls == old(calls) + 1
      ensures counter == Bump(old(counter), "before_delete")
    {
      Increment("before_delete");
    }

    method AfterDelete(context: Value, resources: Value)
      requires Valid()
      modifies this
      ensures Valid() && calls == old(calls) + 1
      ensures counter == Bump(old(counter), "after_delete")
    {
      Increment("after_delete");
    }

    method BeforeShow(resource: Value)
      requires Valid()
      modifies this
      ensures Valid() && calls == old(calls) + 1
      ensures counter == Bump(old(counter), "before_show")
    {
      Increment("before_show");
    }
  }

  lemma {:induction false} ZeroTotal(keys: seq<string>)
    ensures Total(map[], keys) == 0
    decreases |keys|
  {
    if keys != [] {
      ZeroTotal(keys[1..]);
    }
  }
}
