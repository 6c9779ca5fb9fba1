/**
 * The workspace registry `PublishCtx` of src/plotter/plotter.go: a table from
 * 32-bit workspace ids to delivery channels. Every method of the source runs
 * under one mutex, so each is modelled as an atomic, sequential method.
 */
module Registry {

  const Int32Min: int := -0x8000_0000
  const Int32Max: int := 0x7fff_ffff

  /** Go's `int32`. */
  newtype int32 = x: int | -0x8000_0000 <= x < 0x8000_0000

  /** Go's conversion to `int32` (and `int32` addition): keeps the low 32 bits, two's complement. */
  function Wrap32(n: int): (r: int32)
    ensures (r as int - n) % 0x1_0000_0000 == 0
    ensures Int32Min <= n <= Int32Max ==> r as int == n
  {
    ((n - Int32Min) % 0x1_0000_0000 + Int32Min) as int32
  }

  /** One payload: the rows of cells parsed from a request body. */
  datatype Data = Data(cells: seq<seq<string>>)

  /** A Go `chan Data`: an opaque handle of which only "closed" is observed here. */
  class Chan {
    var closed: bool

    constructor ()
      ensures !closed
    {
      closed := false;
    }
  }

  /**
   * The value the scan in `Register` ends with: the largest key, where the
   * scan starts from 0, so it is 0 when no key is positive.
   */
  ghost function MaxKey(keys: set<int32>): (m: int32)
    ensures 0 <= m
    ensures forall k :: k in keys ==> k <= m
    ensures m == 0 || m in keys
    decreases keys
  {
    if keys == {} then 0
    else
      var k :| k in keys;
      var m := MaxKey(keys - {k});
      assert forall j :: j in keys ==> j == k || j in keys - {k};
      if k > m then k else m
  }

  /** The id `Register` allocates for a table with these keys: `MaxKey + 1` in 32-bit arithmetic. */
  ghost function NextId(keys: set<int32>): (id: int32)
    ensures keys == {} ==> id == 1
    ensures MaxKey(keys) as int < Int32Max ==>
              id as int == MaxKey(keys) as int + 1 && 1 <= id && forall k :: k in keys ==> k < id
    ensures MaxKey(keys) as int < Int32Max ==> id !in keys
    ensures MaxKey(keys) as int == Int32Max ==> id as int == Int32Min
    ensures id != 0
  {
    Wrap32(MaxKey(keys) as int + 1)
  }

  /** Ids allocated back to back, with no release in between, are consecutive. */
  lemma SuccessiveIdsIncrease(keys: set<int32>)
    requires MaxKey(keys) as int < Int32Max - 1
    ensures NextId(keys + {NextId(keys)}) as int == NextId(keys) as int + 1
  {
  }

  /** Removing the largest key leaves a strictly smaller maximum. */
  lemma MaxKeyOfRest(keys: set<int32>, m: int32, r: int32)
    requires m == MaxKey(keys) && 0 < m
    requires r == MaxKey(keys - {m})
    ensures r < m
    ensures m - 1 in keys ==> r == m - 1
  {
    if r != 0 {
      assert r in keys - {m};
    }
    if m - 1 in keys {
      assert m - 1 in keys - {m};
    }
  }

  /**
   * Allocation is "largest live id + 1", not a global counter: once the largest
   * id is released, the next allocation is no larger, and it is that same id
   * when its predecessor is still live.
   */
  lemma ReleasedMaximumIsReused(keys: set<int32>, m: int32)
    requires m == MaxKey(keys) && 0 < m
    ensures NextId(keys - {m}) <= m
    ensures m - 1 in keys ==> NextId(keys - {m}) == m
  {
    MaxKeyOfRest(keys, m, MaxKey(keys - {m}));
  }

  /**
   * Once the id 2^31 - 1 is live, `max += 1` wraps: the allocation is -2^31,
   * and while that id is live the next allocation returns it again.
   */
  lemma WrappedIdCollides(keys: set<int32>)
    requires Int32Max as int32 in keys
    ensures NextId(keys) as int == Int32Min
    ensures NextId(keys + {Int32Min as int32}) in keys + {Int32Min as int32}
  {
  }

  class PublishCtx {
    var c: map<int32, Chan>

    /**
     * Every channel in the table is open, no two ids share a channel, and 0 is
     * never an id: the scan starts from 0 and `max += 1` never yields 0.
     */
    ghost predicate Valid()
      reads this, c.Values
    {
      && 0 !in c
      && (forall id :: id in c ==> !c[id].closed)
      && (forall i, j :: i in c && j in c && i != j ==> c[i] != c[j])
    }

    /** Every id in the table is at least 1 (holds until the allocation wraps around). */
    ghost predicate KeysPositive()
      reads this
    {
      forall id :: id in c ==> 1 <= id
    }

    constructor ()
      ensures Valid() && KeysPositive()
      ensures c == map[]
    {
      c := map[];
    }

    /** The channel registered for `id`, or nil; reads the table only. */
    method Get(id: int32) returns (ch: Chan?)
      ensures id in c ==> ch == c[id]
      ensures id !in c ==> ch == null
    {
      if id in c {
        return c[id];
      }
      return null;
    }

    /** Allocates the largest live id plus one and registers a fresh, open channel under it. */
    method Register() returns (id: int32, pubchan: Chan)
      requires Valid()
      modifies this
      ensures Valid()
      ensures fresh(pubchan) && !pubchan.closed
      ensures id == NextId(old(c).Keys)
      ensures c == old(c)[id := pubchan]
      ensures old(KeysPositive()) && MaxKey(old(c).Keys) as int < Int32Max ==> KeysPositive()
    {
      var max: int32 := 0;
      var rest := c.Keys;
      while rest != {}
        invariant rest <= c.Keys
        invariant 0 <= max
        invariant forall k :: k in c.Keys - rest ==> k <= max
        invariant max == 0 || max in c.Keys - rest
        decreases rest
      {
        var k :| k in rest;
        if k > max {
          max := k;
        }
        assert c.Keys - (rest - {k}) == (c.Keys - rest) + {k};
        rest := rest - {k};
      }
      assert c.Keys - rest == c.Keys;
      assert max == MaxKey(c.Keys);
      // `max += 1` on an int32
      max := Wrap32(max as int + 1);
      pubchan := new Chan();
      c := c[max := pubchan];
      id := max;
    }

    /** Closes and unregisters the channel of `id`; does nothing when `id` is absent. */
    method Close(id: int32)
      requires Valid()
      modifies this, if id in c then {c[id]} else {}
      ensures Valid()
      ensures c == old(c) - {id}
      ensures id in old(c) ==> old(c)[id].closed
      ensures old(KeysPositive()) ==> KeysPositive()
    {
      if id in c {
        var ch := c[id];
        ch.closed := true;
        c := c - {id};
      }
    }
  }
}
