/**
 * The workload generator of the benchmark: one sample record for a size `n`,
 * with fixed scalar fields, an array of `n` item records and an object with
 * the `n` keys "key-0" ... "key-(n-1)".
 *
 * Math.random and Date.now are not modelled as such: the random draws are a
 * parameter `draws`, consumed in the order the generator makes them (the
 * `number` field, the `integer` field, then for each index the array item's
 * value and the object entry's value), and the clock reading is `now`.
 * JavaScript doubles are modelled as reals.
 */
module Workload {
  import opened Decimal

  /** The fixed text of the `string` field. */
  const Lorem: string := LoremParagraph + " " + LoremParagraph

  const LoremParagraph: string := "Lorem ipsum dolor sit amet, consectetur adipiscing elit. Sed do eiusmod tempor incididunt ut labore et dolore magna aliqua. Ut enim ad minim veniam, quis nostrud exercitation ullamco laboris nisi ut aliquip ex ea commodo consequat. Duis aute irure dolor in reprehenderit in voluptate velit esse cillum dolore eu fugiat nulla pariatur. Excepteur sint occaecat cupidatat non proident, sunt in culpa qui officia deserunt mollit anim id est laborum."

  /** Math.PI. */
  const Pi: real := 3.141592653589793

  datatype Nested = Nested(a: int, b: string)

  datatype Item = Item(id: int, name: string, value: real, nested: Nested)

  /** The sample record; `str`, `arr` and `obj` are the JavaScript fields `string`, `array` and `object`. */
  datatype Sample = Sample(
    str: string,
    number: real,
    integer: int,
    boolean: bool,
    arr: seq<Item>,
    obj: map<string, Item>,
    date: int)

  /** How many times the generator calls Math.random for a given size. */
  function DrawCount(size: nat): nat {
    2 + 2 * size
  }

  /** The item built for index `i`, with the random `value` given. */
  function ItemAt(i: nat, value: real): Item {
    Item(i, "item-" + NatToString(i), value, Nested(2 * i, "nested-" + NatToString(i)))
  }

  function Key(i: nat): string {
    "key-" + NatToString(i)
  }

  /** The array after the first `n` iterations of the generator's loop. */
  function SampleArray(n: nat, draws: seq<real>): seq<Item>
    requires DrawCount(n) <= |draws|
  {
    if n == 0 then [] else SampleArray(n - 1, draws) + [ItemAt(n - 1, draws[2 * n])]
  }

  /** The object after the first `n` iterations of the generator's loop. */
  function SampleObject(n: nat, draws: seq<real>): map<string, Item>
    requires DrawCount(n) <= |draws|
  {
    if n == 0 then map[] else SampleObject(n - 1, draws)[Key(n - 1) := ItemAt(n - 1, draws[2 * n + 1])]
  }

  /** The sample record for `size`, given the random draws and the clock reading. */
  function SampleData(size: nat, draws: seq<real>, now: int): Sample
    requires |draws| == DrawCount(size)
  {
    Sample(Lorem, Pi * 1000.0 * draws[0], (draws[1] * -1000000.0).Floor, true,
           SampleArray(size, draws), SampleObject(size, draws), now)
  }

  /** createSampleData: the scalar fields first, then one loop iteration per index. */
  method CreateSampleData(size: nat, draws: seq<real>, now: int) returns (s: Sample)
    requires |draws| == DrawCount(size)
    ensures s == SampleData(size, draws, now)
    ensures |s.arr| == size && |s.obj| == size
  {
    s := Sample(Lorem, Pi * 1000.0 * draws[0], (draws[1] * -1000000.0).Floor, true, [], map[], now);
    for i := 0 to size
      invariant s == SampleData(size, draws, now).(arr := SampleArray(i, draws), obj := SampleObject(i, draws))
    {
      s := s.(arr := s.arr + [ItemAt(i, draws[2 + 2 * i])]);
      s := s.(obj := s.obj[Key(i) := ItemAt(i, draws[3 + 2 * i])]);
    }
    SampleArrayShape(size, draws);
    SampleObjectSize(size, draws);
  }

  /** Array entry `i` is the item for index `i`, and there are exactly `n` entries. */
  lemma {:induction false} SampleArrayShape(n: nat, draws: seq<real>)
    requires DrawCount(n) <= |draws|
    ensures |SampleArray(n, draws)| == n
    ensures forall i :: 0 <= i < n ==> SampleArray(n, draws)[i] == ItemAt(i, draws[2 + 2 * i])
  {
    if n > 0 {
      SampleArrayShape(n - 1, draws);
    }
  }

  /** Different indices give different keys. */
  lemma KeyInjective(i: nat, j: nat)
    ensures Key(i) == Key(j) ==> i == j
  {
    if Key(i) == Key(j) {
      assert NatToString(i) == Key(i)[4..];
      assert NatToString(j) == Key(j)[4..];
      NatToStringInjective(i, j);
    }
  }

  function KeySet(n: nat): set<string> {
    set i | 0 <= i < n :: Key(i)
  }

  lemma KeySetStep(n: nat)
    requires n > 0
    ensures KeySet(n) == KeySet(n - 1) + {Key(n - 1)}
  {
  }

  /** The object's keys are exactly "key-0" ... "key-(n-1)". */
  lemma {:induction false} SampleObjectKeys(n: nat, draws: seq<real>)
    requires DrawCount(n) <= |draws|
    ensures SampleObject(n, draws).Keys == KeySet(n)
  {
    if n > 0 {
      SampleObjectKeys(n - 1, draws);
      KeySetStep(n);
    }
  }

  /** Entry "key-i" is the item for index `i`: no later iteration overwrites it. */
  lemma {:induction false} SampleObjectAt(n: nat, draws: seq<real>, i: nat)
    requires DrawCount(n) <= |draws|
    requires i < n
    ensures Key(i) in SampleObject(n, draws)
    ensures SampleObject(n, draws)[Key(i)] == ItemAt(i, draws[3 + 2 * i])
  {
    if i < n - 1 {
      SampleObjectAt(n - 1, draws, i);
      KeyInjective(i, n - 1);
    }
  }

  /**
   * The object's keys are exactly "key-0" ... "key-(n-1)", and entry "key-i" is
   * the item for index `i`.
   */
  lemma SampleObjectShape(n: nat, draws: seq<real>)
    requires DrawCount(n) <= |draws|
    ensures SampleObject(n, draws).Keys == KeySet(n)
    ensures forall i :: 0 <= i < n ==> SampleObject(n, draws)[Key(i)] == ItemAt(i, draws[3 + 2 * i])
  {
    SampleObjectKeys(n, draws);
    forall i | 0 <= i < n
      ensures SampleObject(n, draws)[Key(i)] == ItemAt(i, draws[3 + 2 * i])
    {
      SampleObjectAt(n, draws, i);
    }
  }

  /** There are exactly `n` keys "key-i". */
  lemma {:induction false} KeySetSize(n: nat)
    ensures |KeySet(n)| == n
  {
    if n > 0 {
      KeySetSize(n - 1);
      KeySetStep(n);
      if Key(n - 1) in KeySet(n - 1) {
        var i :| 0 <= i < n - 1 && Key(i) == Key(n - 1);
        KeyInjective(i, n - 1);
      }
    }
  }

  /** The object has exactly `n` entries. */
  lemma SampleObjectSize(n: nat, draws: seq<real>)
    requires DrawCount(n) <= |draws|
    ensures |SampleObject(n, draws)| == n
  {
    SampleObjectShape(n, draws);
    KeySetSize(n);
    assert |SampleObject(n, draws)| == |SampleObject(n, draws).Keys|;
  }

  /** An item with its random `value` blanked out: the part fixed by its index. */
  function Shape(it: Item): Item {
    it.(value := 0.0)
  }

  /** Array entry `i` and object entry "key-i" agree on id, name, nested.a and nested.b. */
  lemma ArrayAndObjectAgree(size: nat, draws: seq<real>, now: int, i: nat)
    requires |draws| == DrawCount(size)
    requires i < size
    ensures |SampleData(size, draws, now).arr| == size
    ensures Key(i) in SampleData(size, draws, now).obj
    ensures Shape(SampleData(size, draws, now).arr[i]) == Shape(SampleData(size, draws, now).obj[Key(i)])
  {
    var s := SampleData(size, draws, now);
    assert s.arr == SampleArray(size, draws) && s.obj == SampleObject(size, draws);
    SampleArrayShape(size, draws);
    SampleObjectShape(size, draws);
    assert Key(i) in KeySet(size);
  }

  /** An array with every random `value` blanked out. */
  function ArraySkeleton(arr: seq<Item>): seq<Item> {
    seq(|arr|, i requires 0 <= i < |arr| => Shape(arr[i]))
  }

  /** An object with every random `value` blanked out. */
  function ObjectSkeleton(obj: map<string, Item>): map<string, Item> {
    map k | k in obj :: Shape(obj[k])
  }

  /** The sample with every field that comes from Math.random or Date.now blanked out. */
  function Skeleton(s: Sample): Sample {
    s.(number := 0.0, integer := 0, date := 0, arr := ArraySkeleton(s.arr), obj := ObjectSkeleton(s.obj))
  }

  /** The array's shape does not depend on the draws. */
  lemma StableArrayShape(n: nat, draws1: seq<real>, draws2: seq<real>)
    requires DrawCount(n) <= |draws1| && DrawCount(n) <= |draws2|
    ensures ArraySkeleton(SampleArray(n, draws1)) == ArraySkeleton(SampleArray(n, draws2))
  {
    SampleArrayShape(n, draws1);
    SampleArrayShape(n, draws2);
  }

  /** The object's shape does not depend on the draws. */
  lemma StableObjectShape(n: nat, draws1: seq<real>, draws2: seq<real>)
    requires DrawCount(n) <= |draws1| && DrawCount(n) <= |draws2|
    ensures ObjectSkeleton(SampleObject(n, draws1)) == ObjectSkeleton(SampleObject(n, draws2))
  {
    var o1, o2 := SampleObject(n, draws1), SampleObject(n, draws2);
    SampleObjectShape(n, draws1);
    SampleObjectShape(n, draws2);
    forall k | k in o1
      ensures Shape(o1[k]) == Shape(o2[k])
    {
      var i :| 0 <= i < n && k == Key(i);
    }
  }

  /** Two calls with the same size build the same shape, whatever the draws and the clock. */
  lemma StableShape(size: nat, draws1: seq<real>, now1: int, draws2: seq<real>, now2: int)
    requires |draws1| == DrawCount(size) && |draws2| == DrawCount(size)
    ensures Skeleton(SampleData(size, draws1, now1)) == Skeleton(SampleData(size, draws2, now2))
  {
    StableArrayShape(size, draws1, draws2);
    StableObjectShape(size, draws1, draws2);
  }

  /**
   * The scalar fields: the fixed text, `boolean` true, the clock reading, an
   * `integer` in [-1000000, 0] and a `number` in [0, 1000 * pi), given that every
   * Math.random draw lies in [0, 1). For size 0 both containers are empty.
   */
  lemma SampleScalars(size: nat, draws: seq<real>, now: int)
    requires |draws| == DrawCount(size)
    requires forall k :: 0 <= k < |draws| ==> 0.0 <= draws[k] < 1.0
    ensures SampleData(size, draws, now).str == Lorem
    ensures SampleData(size, draws, now).boolean
    ensures SampleData(size, draws, now).date == now
    ensures -1000000 <= SampleData(size, draws, now).integer <= 0
    ensures 0.0 <= SampleData(size, draws, now).number < Pi * 1000.0
    ensures size == 0 ==> SampleData(size, draws, now).arr == [] && SampleData(size, draws, now).obj == map[]
  {
  }
}
