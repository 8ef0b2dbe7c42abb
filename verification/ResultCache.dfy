/** The result cache: entries keyed by the whole simulation input, least recently used first. */
module ResultCache {
  import opened Common

  datatype CacheEntry = CacheEntry(result: ResultData, size: nat)

  datatype Cache = Cache(order: seq<SimInput>, entries: map<SimInput, CacheEntry>)

  ghost predicate WellFormed(c: Cache) {
    Distinct(c.order) && forall k :: k in c.entries <==> k in c.order
  }

  /** Every entry is what simulating its key gives, at its own size. */
  ghost predicate Agrees(c: Cache, sim: Simulator) {
    forall k :: k in c.entries ==> c.entries[k].result.payload == sim(k) && c.entries[k].size == c.entries[k].result.size
  }

  function SizeAt(entries: map<SimInput, CacheEntry>, k: SimInput): nat {
    if k in entries then entries[k].size else 0
  }

  function OrderBytes(order: seq<SimInput>, entries: map<SimInput, CacheEntry>): nat {
    if order == [] then 0 else SizeAt(entries, order[0]) + OrderBytes(order[1..], entries)
  }

  function Bytes(c: Cache): nat { OrderBytes(c.order, c.entries) }

  function Without<T(==)>(s: seq<T>, x: T): (r: seq<T>) {
    if s == [] then [] else if s[0] == x then Without(s[1..], x) else [s[0]] + Without(s[1..], x)
  }

  function Touch(c: Cache, k: SimInput): Cache { c.(order := Without(c.order, k) + [k]) }

  function Add(c: Cache, k: SimInput, e: CacheEntry): Cache { Cache(c.order + [k], c.entries[k := e]) }

  function Drop(c: Cache, k: SimInput): Cache { Cache(Without(c.order, k), c.entries - {k}) }

  // ---------------------------------------------------------------------------------------------

  lemma {:induction false} WithoutMembers<T>(s: seq<T>, x: T)
    ensures forall y :: y in Without(s, x) <==> y in s && y != x
  {
    if s != [] {
      WithoutMembers(s[1..], x);
      assert s == [s[0]] + s[1..];
    }
  }

  lemma {:induction false} WithoutDistinct<T>(s: seq<T>, x: T)
    requires Distinct(s)
    ensures Distinct(Without(s, x)) && |Without(s, x)| == if x in s then |s| - 1 else |s|
  {
    if s != [] {
      var rest := s[1..];
      DistinctTail(s);
      WithoutDistinct(rest, x);
      WithoutMembers(rest, x);
      if s[0] == x {
        WithoutAbsent(rest, x);
      } else {
        var r := Without(rest, x);
        assert Without(s, x) == [s[0]] + r;
        assert forall j :: 0 <= j < |r| ==> r[j] in r;
      }
    }
  }

  lemma {:induction false} WithoutAbsent<T>(s: seq<T>, x: T)
    requires x !in s
    ensures Without(s, x) == s
  {
    if s != [] { WithoutAbsent(s[1..], x); }
  }

  lemma {:induction false} OrderBytesAppend(a: seq<SimInput>, k: SimInput, entries: map<SimInput, CacheEntry>)
    ensures OrderBytes(a + [k], entries) == OrderBytes(a, entries) + SizeAt(entries, k)
  {
    if a == [] {
      assert a + [k] == [k];
    } else {
      assert (a + [k])[1..] == a[1..] + [k];
      OrderBytesAppend(a[1..], k, entries);
    }
  }

  lemma {:induction false} OrderBytesSame(
      order: seq<SimInput>, e: map<SimInput, CacheEntry>, f: map<SimInput, CacheEntry>)
    requires forall k :: k in order ==> SizeAt(e, k) == SizeAt(f, k)
    ensures OrderBytes(order, e) == OrderBytes(order, f)
  {
    if order != [] { OrderBytesSame(order[1..], e, f); }
  }

  lemma {:induction false} OrderBytesWithout(order: seq<SimInput>, k: SimInput, entries: map<SimInput, CacheEntry>)
    requires Distinct(order) && k in order
    ensures OrderBytes(Without(order, k), entries) == OrderBytes(order, entries) - SizeAt(entries, k)
  {
    if order[0] == k {
      WithoutAbsent(order[1..], k);
    } else {
      OrderBytesWithout(order[1..], k, entries);
      assert Without(order, k)[1..] == Without(order[1..], k);
    }
  }

  lemma TouchKeeps(c: Cache, k: SimInput)
    requires WellFormed(c) && k in c.entries
    ensures WellFormed(Touch(c, k)) && Bytes(Touch(c, k)) == Bytes(c)
  {
    WithoutMembers(c.order, k);
    WithoutDistinct(c.order, k);
    OrderBytesWithout(c.order, k, c.entries);
    OrderBytesAppend(Without(c.order, k), k, c.entries);
  }

  lemma AddKeeps(c: Cache, k: SimInput, e: CacheEntry)
    requires WellFormed(c) && k !in c.entries
    ensures WellFormed(Add(c, k, e)) && Bytes(Add(c, k, e)) == Bytes(c) + e.size
  {
    var f := c.entries[k := e];
    OrderBytesSame(c.order, c.entries, f);
    OrderBytesAppend(c.order, k, f);
  }

  lemma DropKeeps(c: Cache, k: SimInput)
    requires WellFormed(c) && k in c.entries
    ensures WellFormed(Drop(c, k)) && Bytes(Drop(c, k)) == Bytes(c) - c.entries[k].size
  {
    WithoutMembers(c.order, k);
    WithoutDistinct(c.order, k);
    OrderBytesWithout(c.order, k, c.entries);
    OrderBytesSame(Without(c.order, k), c.entries, c.entries - {k});
  }

  // ---------------------------------------------------------------------------------------------
  // Pruning

  /** Whether the pruning loop takes a key: it is not to be kept, and either everything or more room is wanted. */
  predicate Takes(c: Cache, k: SimInput, required: nat, keep: set<SimInput>, reserved: nat, limit: nat) {
    k !in keep && (required == 0 || Bytes(c) + reserved + required > limit)
  }

  /** The loop over a snapshot of the keys in order of use. */
  function PruneKeys(
      c: Cache, keys: seq<SimInput>, required: nat, keep: set<SimInput>, reserved: nat, limit: nat): Cache
    decreases |keys|
  {
    if keys == [] then c
    else
      var next := if Takes(c, keys[0], required, keep, reserved, limit) then Drop(c, keys[0]) else c;
      PruneKeys(next, keys[1..], required, keep, reserved, limit)
  }

  function Pruned(c: Cache, required: nat, keep: set<SimInput>, reserved: nat, limit: nat): Cache {
    PruneKeys(c, c.order, required, keep, reserved, limit)
  }

  predicate Enough(c: Cache, required: nat, reserved: nat, limit: nat) {
    required > 0 && Bytes(c) + reserved + required <= limit
  }

  /** Pruning removes entries and changes nothing else about the cache; kept keys stay. */
  lemma {:induction false} PruneKeysShrinks(
      c: Cache, keys: seq<SimInput>, required: nat, keep: set<SimInput>, reserved: nat, limit: nat)
    requires WellFormed(c) && Distinct(keys) && (forall k :: k in keys ==> k in c.entries)
    ensures var c' := PruneKeys(c, keys, required, keep, reserved, limit);
            && WellFormed(c') && Bytes(c') <= Bytes(c)
            && (forall k :: k in c'.entries ==> k in c.entries && c'.entries[k] == c.entries[k])
            && (forall k :: k in c.entries && (k in keep || k !in keys) ==> k in c'.entries)
    decreases |keys|
  {
    hide Bytes;
    if keys != [] {
      DistinctTail(keys);
      if Takes(c, keys[0], required, keep, reserved, limit) {
        DropKeeps(c, keys[0]);
        PruneKeysShrinks(Drop(c, keys[0]), keys[1..], required, keep, reserved, limit);
      } else {
        PruneKeysShrinks(c, keys[1..], required, keep, reserved, limit);
      }
    }
  }

  /** Once there is room, the loop removes nothing more. */
  lemma {:induction false} EnoughStops(
      c: Cache, keys: seq<SimInput>, required: nat, keep: set<SimInput>, reserved: nat, limit: nat)
    requires Enough(c, required, reserved, limit)
    ensures PruneKeys(c, keys, required, keep, reserved, limit) == c
    decreases |keys|
  {
    hide Bytes;
    if keys != [] { EnoughStops(c, keys[1..], required, keep, reserved, limit); }
  }

  /** What is left over: there is room, or nothing evictable remains among the keys looked at. */
  lemma {:induction false} PruneKeysComplete(
      c: Cache, keys: seq<SimInput>, required: nat, keep: set<SimInput>, reserved: nat, limit: nat)
    requires WellFormed(c) && Distinct(keys) && (forall k :: k in keys ==> k in c.entries)
    ensures var c' := PruneKeys(c, keys, required, keep, reserved, limit);
            Enough(c', required, reserved, limit) || forall k :: k in keys && k in c'.entries ==> k in keep
    decreases |keys|
  {
    hide Bytes;
    if keys != [] {
      DistinctTail(keys);
      if Takes(c, keys[0], required, keep, reserved, limit) {
        var d := Drop(c, keys[0]);
        DropKeeps(c, keys[0]);
        PruneKeysComplete(d, keys[1..], required, keep, reserved, limit);
        PruneKeysShrinks(d, keys[1..], required, keep, reserved, limit);
      } else {
        PruneKeysComplete(c, keys[1..], required, keep, reserved, limit);
        if keys[0] !in keep { EnoughStops(c, keys[1..], required, keep, reserved, limit); }
      }
    }
  }

  /** Eviction follows the order of use: a key goes only if every evictable key used before it goes. */
  lemma {:induction false} PruneKeysPrefix(
      c: Cache, keys: seq<SimInput>, required: nat, keep: set<SimInput>, reserved: nat, limit: nat, i: nat, j: nat)
    requires WellFormed(c) && Distinct(keys) && (forall k :: k in keys ==> k in c.entries)
    requires i < j < |keys| && keys[i] !in keep
    requires keys[j] !in PruneKeys(c, keys, required, keep, reserved, limit).entries
    ensures keys[i] !in PruneKeys(c, keys, required, keep, reserved, limit).entries
    decreases |keys|
  {
    hide Bytes;
    DistinctTail(keys);
    if Takes(c, keys[0], required, keep, reserved, limit) {
      DropKeeps(c, keys[0]);
      if i == 0 {
        PruneKeysShrinks(Drop(c, keys[0]), keys[1..], required, keep, reserved, limit);
      } else {
        PruneKeysPrefix(Drop(c, keys[0]), keys[1..], required, keep, reserved, limit, i - 1, j - 1);
      }
    } else if i == 0 {
      EnoughStops(c, keys[1..], required, keep, reserved, limit);
    } else {
      PruneKeysPrefix(c, keys[1..], required, keep, reserved, limit, i - 1, j - 1);
    }
  }

  /** Eviction is minimal: putting the last evicted entry back would leave too little room. */
  lemma {:induction false} PruneKeysMinimal(
      c: Cache, keys: seq<SimInput>, required: nat, keep: set<SimInput>, reserved: nat, limit: nat, j: nat)
    requires WellFormed(c) && Distinct(keys) && (forall k :: k in keys ==> k in c.entries)
    requires required > 0 && j < |keys|
    requires keys[j] !in PruneKeys(c, keys, required, keep, reserved, limit).entries
    requires forall l :: j < l < |keys| ==> keys[l] in PruneKeys(c, keys, required, keep, reserved, limit).entries
    ensures Bytes(PruneKeys(c, keys, required, keep, reserved, limit)) + c.entries[keys[j]].size
            + reserved + required > limit
    decreases |keys|
  {
    hide Bytes;
    DistinctTail(keys);
    var next := if Takes(c, keys[0], required, keep, reserved, limit) then Drop(c, keys[0]) else c;
    if Takes(c, keys[0], required, keep, reserved, limit) { DropKeeps(c, keys[0]); }
    if j == 0 {
      PruneKeysShrinks(next, keys[1..], required, keep, reserved, limit);
      NothingTaken(next, keys[1..], required, keep, reserved, limit);
    } else {
      assert next.entries[keys[j]] == c.entries[keys[j]];
      PruneKeysMinimal(next, keys[1..], required, keep, reserved, limit, j - 1);
    }
  }

  lemma {:induction false} NothingTaken(
      c: Cache, keys: seq<SimInput>, required: nat, keep: set<SimInput>, reserved: nat, limit: nat)
    requires WellFormed(c) && Distinct(keys) && (forall k :: k in keys ==> k in c.entries)
    requires forall k :: k in keys ==> k in PruneKeys(c, keys, required, keep, reserved, limit).entries
    ensures PruneKeys(c, keys, required, keep, reserved, limit) == c
    decreases |keys|
  {
    hide Bytes;
    if keys != [] {
      DistinctTail(keys);
      if Takes(c, keys[0], required, keep, reserved, limit) {
        DropKeeps(c, keys[0]);
        PruneKeysShrinks(Drop(c, keys[0]), keys[1..], required, keep, reserved, limit);
        assert false;
      }
      NothingTaken(c, keys[1..], required, keep, reserved, limit);
    }
  }

  function Survivors(s: seq<SimInput>, kept: set<SimInput>): seq<SimInput> {
    if s == [] then [] else (if s[0] in kept then [s[0]] else []) + Survivors(s[1..], kept)
  }

  lemma {:induction false} SurvivorsWithout(s: seq<SimInput>, k: SimInput, kept: set<SimInput>)
    requires k !in kept
    ensures Survivors(Without(s, k), kept) == Survivors(s, kept)
  {
    if s != [] {
      SurvivorsWithout(s[1..], k, kept);
      if s[0] != k { assert Without(s, k)[1..] == Without(s[1..], k); }
    }
  }

  lemma {:induction false} SurvivorsAll(s: seq<SimInput>, kept: set<SimInput>)
    requires forall k :: k in s ==> k in kept
    ensures Survivors(s, kept) == s
  {
    if s != [] { SurvivorsAll(s[1..], kept); }
  }

  /** Pruning does not reorder what it leaves. */
  lemma {:induction false} PruneKeysOrder(
      c: Cache, keys: seq<SimInput>, required: nat, keep: set<SimInput>, reserved: nat, limit: nat)
    requires WellFormed(c) && Distinct(keys) && (forall k :: k in keys ==> k in c.entries)
    ensures var c' := PruneKeys(c, keys, required, keep, reserved, limit);
            c'.order == Survivors(c.order, c'.entries.Keys)
    decreases |keys|
  {
    hide Bytes, Survivors;
    if keys == [] {
      SurvivorsAll(c.order, c.entries.Keys);
    } else {
      DistinctTail(keys);
      if Takes(c, keys[0], required, keep, reserved, limit) {
        DropKeeps(c, keys[0]);
        PruneKeysOrder(Drop(c, keys[0]), keys[1..], required, keep, reserved, limit);
        PruneKeysShrinks(Drop(c, keys[0]), keys[1..], required, keep, reserved, limit);
        SurvivorsWithout(c.order, keys[0], PruneKeys(c, keys, required, keep, reserved, limit).entries.Keys);
      } else {
        PruneKeysOrder(c, keys[1..], required, keep, reserved, limit);
      }
    }
  }

  /**
   * Pruning for a positive requirement evicts the shortest prefix, in order of use, of the keys not to be kept
   * that makes room, or all of them; pruning without a requirement evicts all of them.
   */
  lemma PruningIsMinimalPrefix(c: Cache, required: nat, keep: set<SimInput>, reserved: nat, limit: nat)
    requires WellFormed(c)
    ensures var c' := Pruned(c, required, keep, reserved, limit);
            && WellFormed(c')
            && (forall k :: k in c'.entries ==> k in c.entries && c'.entries[k] == c.entries[k])
            && (forall k :: k in c.entries && k in keep ==> k in c'.entries)
            && (forall i, j :: 0 <= i < j < |c.order| && c.order[i] !in keep && c.order[j] !in c'.entries ==>
                  c.order[i] !in c'.entries)
            && (forall j :: required > 0 && 0 <= j < |c.order| && c.order[j] !in c'.entries
                            && (forall l :: j < l < |c.order| ==> c.order[l] in c'.entries) ==>
                  Bytes(c') + c.entries[c.order[j]].size + reserved + required > limit)
            && (Enough(c', required, reserved, limit) || forall k :: k in c'.entries ==> k in keep)
            && c'.order == Survivors(c.order, c'.entries.Keys)
  {
    PruneKeysOrder(c, c.order, required, keep, reserved, limit);
    var c' := Pruned(c, required, keep, reserved, limit);
    PruneKeysShrinks(c, c.order, required, keep, reserved, limit);
    PruneKeysComplete(c, c.order, required, keep, reserved, limit);
    forall i, j | 0 <= i < j < |c.order| && c.order[i] !in keep && c.order[j] !in c'.entries
      ensures c.order[i] !in c'.entries
    {
      PruneKeysPrefix(c, c.order, required, keep, reserved, limit, i, j);
    }
    forall j | required > 0 && 0 <= j < |c.order| && c.order[j] !in c'.entries
               && (forall l :: j < l < |c.order| ==> c.order[l] in c'.entries)
      ensures Bytes(c') + c.entries[c.order[j]].size + reserved + required > limit
    {
      PruneKeysMinimal(c, c.order, required, keep, reserved, limit, j);
    }
  }

  // ---------------------------------------------------------------------------------------------
  // Order of use

  /** One key comes before another. */
  ghost predicate Precedes(order: seq<SimInput>, a: SimInput, b: SimInput) {
    exists i, j :: 0 <= i < j < |order| && order[i] == a && order[j] == b
  }

  /** Using a key puts it last and leaves the others in the order they were in. */
  ghost predicate PutLast(before: seq<SimInput>, after: seq<SimInput>, k: SimInput) {
    && after != [] && after[|after| - 1] == k
    && (forall a :: a in after <==> a == k || a in before)
    && forall a, b :: a != k && b != k ==> (Precedes(after, a, b) <==> Precedes(before, a, b))
  }

  lemma PrecedesTail(s: seq<SimInput>, a: SimInput, b: SimInput)
    requires s != []
    ensures Precedes(s, a, b) <==> (s[0] == a && b in s[1..]) || Precedes(s[1..], a, b)
  {
    if Precedes(s, a, b) {
      var i, j :| 0 <= i < j < |s| && s[i] == a && s[j] == b;
      assert s[1..][j - 1] == b;
      if i > 0 { assert s[1..][i - 1] == a; }
    }
    if s[0] == a && b in s[1..] {
      var j :| 0 <= j < |s[1..]| && s[1..][j] == b;
      assert s[j + 1] == b;
    }
    if Precedes(s[1..], a, b) {
      var i, j :| 0 <= i < j < |s[1..]| && s[1..][i] == a && s[1..][j] == b;
      assert s[i + 1] == a && s[j + 1] == b;
    }
  }

  lemma PrecedesInit(s: seq<SimInput>, k: SimInput, a: SimInput, b: SimInput)
    requires b != k
    ensures Precedes(s + [k], a, b) <==> Precedes(s, a, b)
  {
    if Precedes(s, a, b) {
      var i, j :| 0 <= i < j < |s| && s[i] == a && s[j] == b;
      assert (s + [k])[i] == a && (s + [k])[j] == b;
    }
  }

  lemma {:induction false} WithoutOrder(s: seq<SimInput>, k: SimInput, a: SimInput, b: SimInput)
    requires a != k && b != k
    ensures Precedes(Without(s, k), a, b) <==> Precedes(s, a, b)
  {
    hide Precedes;
    if s == [] {
      assert Without(s, k) == s;
    } else {
      WithoutOrder(s[1..], k, a, b);
      WithoutMembers(s[1..], k);
      PrecedesTail(s, a, b);
      if s[0] != k {
        assert Without(s, k)[1..] == Without(s[1..], k);
        PrecedesTail(Without(s, k), a, b);
      }
    }
  }

  lemma TouchUses(c: Cache, k: SimInput)
    requires WellFormed(c) && k in c.entries
    ensures PutLast(c.order, Touch(c, k).order, k) && Touch(c, k).entries == c.entries
  {
    hide Precedes;
    WithoutMembers(c.order, k);
    forall a, b | a != k && b != k ensures Precedes(Touch(c, k).order, a, b) <==> Precedes(c.order, a, b) {
      WithoutOrder(c.order, k, a, b);
      PrecedesInit(Without(c.order, k), k, a, b);
    }
  }

  lemma AddUses(c: Cache, k: SimInput, e: CacheEntry)
    requires WellFormed(c) && k !in c.entries
    ensures PutLast(c.order, Add(c, k, e).order, k) && Add(c, k, e).entries == c.entries[k := e]
  {
    hide Precedes;
    forall a, b | a != k && b != k ensures Precedes(c.order + [k], a, b) <==> Precedes(c.order, a, b) {
      PrecedesInit(c.order, k, a, b);
    }
  }

  /** The result used last is evicted to make room only when every other evictable one is. */
  lemma LastUsedGoesLast(before: seq<SimInput>, c: Cache, k: SimInput, required: nat, keep: set<SimInput>,
                         reserved: nat, limit: nat)
    requires WellFormed(c) && PutLast(before, c.order, k) && required > 0
    requires k !in Pruned(c, required, keep, reserved, limit).entries
    ensures forall a :: a in Pruned(c, required, keep, reserved, limit).entries ==> a in keep
  {
    hide Pruned, Precedes;
    PruningIsMinimalPrefix(c, required, keep, reserved, limit);
    var c', last := Pruned(c, required, keep, reserved, limit), |c.order| - 1;
    assert c.order[last] == k;
    forall a | a in c'.entries ensures a in keep {
      var i :| 0 <= i < |c.order| && c.order[i] == a;
    }
  }
}
