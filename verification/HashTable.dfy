/**
  The generic hash table of `src/lib/hash/hash.c`: open addressing with
  CPython-style perturbed probing, tombstones, and resizing in both directions.
  Keys are compared by value and the hash function is a function of the key, so
  the comparison callback agrees with it. The outcome of each memory allocation
  is a parameter (`memOk`).
  */
module HashTableModel {
  import opened ProbeTheory
  import opened HashProbe

  /** The size `hash_update` moves the table to. */
  function TargetSize(fill: nat, count: nat, size: nat): (r: nat) {
    if 3 * fill >= 2 * size then 2 * size
    else if size > MIN_SIZE && 4 * count <= size then size / 2
    else size
  }

  lemma DoubleSize(size: nat)
    requires TableSize(size) && 2 * size < WORD / 2
    ensures TableSize(2 * size)
  {
    var k :| 3 <= k <= 62 && size == Pow2(k);
    WordIsPow2();
    assert Pow2(64) == 4 * Pow2(62);
    assert 2 * size == Pow2(k + 1);
  }

  lemma HalfSize(size: nat)
    requires TableSize(size) && size > MIN_SIZE
    ensures TableSize(size / 2) && size % 2 == 0
  {
    var k :| 3 <= k <= 62 && size == Pow2(k);
    assert k != 3;
    assert size / 2 == Pow2(k - 1);
  }

  lemma {:induction false} SizeAtLeastMin(size: nat)
    requires TableSize(size)
    ensures size >= MIN_SIZE
  {
    var k :| 3 <= k <= 62 && size == Pow2(k);
    Pow2Add(3, k - 3);
  }

  /** Without tombstones every slot is EMPTY or active. */
  lemma {:induction false} NoTombstones<K, V>(t: seq<Slot<K, V>>, i: nat)
    requires i < |t| && CountUsed(t) == CountActive(t)
    ensures !t[i].Deleted?
  {
    var e := |t| - 1;
    if i < e {
      NoTombstones(t[..e], i);
    }
  }

  class HashTable<K(==), V> {
    const hfunc: K -> Word
    var fill: nat
    var count: nat
    var mask: nat
    var table: array<Slot<K, V>>

    /** What every operation keeps: the slot-array invariants and exact counters. */
    ghost predicate Whole()
      reads this, table
    {
      && TableOk(table[..], hfunc)
      && mask + 1 == table.Length
      && count == CountActive(table[..])
      && fill == CountUsed(table[..])
    }

    /** There is an EMPTY slot besides. A store after failed resizes may take the last. */
    ghost predicate Valid()
      reads this, table
    {
      Whole() && fill < table.Length
    }

    /** Exactly when a lookup ends, by `LookupEnds`. */
    ghost predicate Ends(key: K)
      requires Whole()
      reads this, table
    {
      fill < table.Length || key in Model()
    }

    /** The load-factor bound that a successful update re-establishes. */
    ghost predicate LoadOk()
      reads this, table
    {
      3 * fill < 2 * table.Length
    }

    ghost function Model(): map<K, V>
      requires Whole()
      reads this, table
    {
      Contents(table[..], hfunc)
    }

    constructor (hfunc: K -> Word)
      ensures Valid() && LoadOk() && Model() == map[] && this.hfunc == hfunc
      ensures fresh(table) && table.Length == MIN_SIZE && fill == 0
    {
      this.hfunc := hfunc;
      fill, count, mask := 0, 0, MIN_SIZE - 1;
      table := new Slot<K, V>[MIN_SIZE](_ => Empty);
      new;
      assert Pow2(3) == MIN_SIZE;
      CountBlank(table[..]);
    }

    /** `hash_initialize`: a blank array of `size` slots, or no change at all. */
    method Initialize(size: nat, memOk: bool) returns (rc: int)
      requires TableSize(size)
      modifies this
      ensures rc == if memOk then 0 else -1
      ensures !memOk ==> unchanged(this)
      ensures memOk ==> fresh(table) && table.Length == size
      ensures memOk ==> Valid() && fill == count == 0 && Model() == map[]
    {
      if !memOk { return -1; }
      fill, count, mask := 0, 0, size - 1;
      table := new Slot<K, V>[size];
      var i := 0;
      while i < size
        invariant 0 <= i <= size && table.Length == size && fresh(table)
        invariant fill == count == 0 && mask == size - 1
        invariant forall j :: 0 <= j < i ==> table[j] == Empty
      {
        table[i] := Empty;
        i := i + 1;
      }
      CountBlank(table[..]);
      return 0;
    }

    /** `hash_lookup`. It ends within `13 + size` probes. */
    method Lookup(key: K) returns (i: nat, ghost probes: nat)
      requires Whole() && Ends(key)
      ensures i < table.Length && Reached(table[..], hfunc(key), i)
      ensures table[i].Active? ==> table[i].key == key
      ensures key in Model() <==> table[i].Active?
      ensures key in Model() ==> Model()[key] == table[i].value
      ensures probes <= 13 + table.Length
    {
      ghost var t := table[..];
      var h: Word := hfunc(key);
      var size := mask + 1;
      var probe := Probe(h % size, h);
      var free: int := -1;
      ghost var last := LookupStops(t, hfunc, key);
      probes := 0;
      while true
        invariant probe == ProbeAt(h, size, probes) && probes <= last
        invariant Stops(t, h, key, last)
        invariant Missed(t, h, key, probes)
        invariant free == -1 || (0 <= free < size && t[free].Deleted? && Reached(t, h, free))
        decreases last - probes
      {
        i := probe.index % size;
        assert i == SlotAt(h, size, probes) && ReachedAt(t, h, i, probes) && t[i] == table[i];
        if table[i].Empty? {
          AbsentAtEmpty(t, hfunc, key, probes);
          i, probes := if free == -1 then i else free, probes + 1;
          return;
        }
        if table[i].Active? && table[i].key == key {
          PresentAtActive(t, hfunc, i);
          probes := probes + 1;
          return;
        }
        if table[i].Deleted? && free == -1 {
          free := i;
        }
        MissAgain(t, h, key, probes);
        probe := NextProbe(probe);
        probes := probes + 1;
      }
    }

    /** `hash_isset`. */
    method IsSet(key: K) returns (r: bool)
      requires Whole() && Ends(key)
      ensures r <==> key in Model()
    {
      var i, _ := Lookup(key);
      r := table[i].Active?;
    }

    /** `hash_get`. */
    method Get(key: K, default: V) returns (r: V)
      requires Whole() && Ends(key)
      ensures r == if key in Model() then Model()[key] else default
    {
      var i, _ := Lookup(key);
      r := if table[i].Active? then table[i].value else default;
    }
  
    /** Writes an active slot where `Lookup` put the key. */
    method Store(i: nat, key: K, value: V)
      requires Whole() && i < table.Length && CanStore(table[..], hfunc, i, key)
      modifies this`fill, this`count, table
      ensures Whole() && Model() == old(Model())[key := value]
      ensures count == old(count) + (if old(table[i].Active?) then 0 else 1)
      ensures fill == old(fill) + (if old(table[i].Empty?) then 1 else 0)
      ensures forall j :: 0 <= j < table.Length && j != i ==> table[j] == old(table[j])
      ensures table[i] == Active(key, value, hfunc(key))
    {
      ghost var t := table[..];
      StoreKeeps(t, hfunc, i, key, value);
      CountUpdate(t, i, Active(key, value, hfunc(key)));
      if !table[i].Active? {
        count := count + 1;
        if table[i].Empty? {
          fill := fill + 1;
        }
      }
      table[i] := Active(key, value, hfunc(key));
      assert table[..] == t[i := Active(key, value, hfunc(key))];
    }

    /** `hash_copy`: re-inserts the active slots of `source` into a blank table. */
    method Copy(source: array<Slot<K, V>>)
      requires Valid() && fill == count == 0 && Model() == map[]
      requires source != table && TableOk(source[..], hfunc)
      requires CountActive(source[..]) < table.Length
      modifies this`fill, this`count, table
      ensures Valid() && Model() == Contents(source[..], hfunc)
      ensures fill == count == CountActive(source[..])
    {
      ghost var t := source[..];
      var i := 0;
      while i < source.Length
        invariant 0 <= i <= source.Length && source[..] == t
        invariant Valid() && fill == count == CountActive(t[..i])
        invariant CopiedUpTo(t, i, Model())
      {
        CountPrefix(t, i + 1);
        assert t[..i + 1][..i] == t[..i];
        CopyNext(t, hfunc, i, Model());
        if source[i].Active? {
          var j, _ := Lookup(source[i].key);
          NoTombstones(table[..], j);
          Store(j, source[i].key, source[i].value);
        }
        i := i + 1;
      }
      assert t[..i] == t;
      CopyDone(t, hfunc, Model());
    }

    /** `hash_update`: grows, shrinks or leaves the table alone. */
    method Update(memOk: bool) returns (rc: int)
      requires Whole()
      modifies this
      ensures Whole() && Model() == old(Model()) && count == old(count)
      ensures rc == 0 || rc == -1
      ensures table == old(table) || fresh(table)
      ensures rc == 0 ==> Valid() && LoadOk() && table.Length == TargetSize(old(fill), old(count), old(table.Length))
      ensures rc == 0 && table.Length != old(table.Length) ==> fill == count
      ensures rc == 0 && table.Length == old(table.Length) ==> unchanged(this)
      ensures rc == -1 ==> unchanged(this)
      ensures fill <= old(fill)
      ensures memOk && 2 * old(table.Length) < WORD / 2 ==> rc == 0
    {
      var size := mask + 1;
      var newSize := size;
      SizeAtLeastMin(size);
      if 3 * fill >= 2 * size {
        newSize := 2 * size;
        if newSize >= WORD / 2 {
          return -1;  // the doubled size no longer fits a long
        }
        DoubleSize(size);
      } else if size > MIN_SIZE && 4 * count <= size {
        newSize := size / 2;
        HalfSize(size);
      } else {
        return 0;
      }
      var oldTable := table;
      ghost var t := table[..];
      rc := Initialize(newSize, memOk);
      if rc == -1 {
        return;
      }
      assert oldTable[..] == t;
      Copy(oldTable);
    }

    /** `hash_set`. A negative result means the resize failed; the pair is stored
        all the same, in the last EMPTY slot if need be. */
    method Set(key: K, value: V, memOk: bool) returns (rc: int)
      requires Whole() && Ends(key)
      modifies this, table
      ensures Whole() && Model() == old(Model())[key := value]
      ensures table == old(table) || fresh(table)
      ensures rc == 0 || rc == -1
      ensures old(LoadOk()) && rc == 0 ==> LoadOk()
      ensures key !in old(Model()) && rc == 0 ==> Valid() && LoadOk()
      ensures old(Valid()) && (key in old(Model()) || rc == 0 || old(fill) + 1 < old(table.Length)) ==> Valid()
      ensures memOk && 2 * old(table.Length) < WORD / 2 ==> rc == 0
      ensures fill <= old(fill) + 1
      ensures table.Length <= old(table.Length) ||
              (table.Length == 2 * old(table.Length) && 2 * old(table.Length) <= 3 * (old(fill) + 1))
    {
      var i, _ := Lookup(key);
      var present := table[i].Active?;
      Store(i, key, value);
      if present {
        return 0;
      }
      rc := Update(memOk);
    }

    /** `hash_del`. */
    method Del(key: K, memOk: bool) returns (rc: int)
      requires Whole() && Ends(key)
      modifies this, table
      ensures Whole() && Model() == old(Model()) - {key}
      ensures table == old(table) || fresh(table)
      ensures rc == 0 || rc == -1
      ensures old(LoadOk()) && rc == 0 ==> LoadOk()
      ensures old(Valid()) || rc == 0 ==> Valid()
      ensures memOk && 2 * old(table.Length) < WORD / 2 ==> rc == 0
      ensures fill <= old(fill)
      ensures old(LoadOk()) ==> table.Length <= old(table.Length)
    {
      var i, _ := Lookup(key);
      if !table[i].Active? {
        return 0;
      }
      ghost var t := table[..];
      EraseKeeps(t, hfunc, i);
      CountUpdate(t, i, Deleted);
      table[i] := Deleted;
      assert table[..] == t[i := Deleted];
      count := count - 1;
      rc := Update(memOk);
    }
  }

  // ----- whole runs -----

  datatype Op<K, V> = SetOp(key: K, value: V) | DelOp(key: K) | GetOp(key: K, default: V) | IsSetOp(key: K)

  datatype Answer<V> = Done(rc: int) | Value(value: V) | Flag(flag: bool)

  /** The effect of one operation on a plain map. */
  function Apply<K, V>(m: map<K, V>, op: Op<K, V>): map<K, V> {
    match op
    case SetOp(k, v) => m[k := v]
    case DelOp(k) => m - {k}
    case GetOp(_, _) => m
    case IsSetOp(_) => m
  }

  /** The answer a plain map gives. */
  function Reply<K, V>(m: map<K, V>, op: Op<K, V>): Answer<V> {
    match op
    case SetOp(_, _) => Done(0)
    case DelOp(_) => Done(0)
    case GetOp(k, d) => Value(if k in m then m[k] else d)
    case IsSetOp(k) => Flag(k in m)
  }

  function ApplyAll<K, V>(m: map<K, V>, ops: seq<Op<K, V>>): map<K, V> {
    if ops == [] then m else Apply(ApplyAll(m, ops[..|ops| - 1]), ops[|ops| - 1])
  }

  function Replies<K, V>(m: map<K, V>, ops: seq<Op<K, V>>): (r: seq<Answer<V>>)
    ensures |r| == |ops|
  {
    if ops == [] then []
    else
      var rest := ops[..|ops| - 1];
      Replies(m, rest) + [Reply(ApplyAll(m, rest), ops[|ops| - 1])]
  }

  /** One operation answers what the map answers and has its effect. The counter n
      bounds the table: it holds at most n used slots. */
  method Do<K(==), V>(h: HashTable<K, V>, op: Op<K, V>, ghost n: nat) returns (a: Answer<V>)
    requires h.Valid() && h.LoadOk() && n < WORD / 16
    requires h.fill <= n && (h.table.Length <= MIN_SIZE || h.table.Length <= 3 * n)
    modifies h, h.table
    ensures h.Valid() && h.LoadOk() && (h.table == old(h.table) || fresh(h.table))
    ensures h.fill <= n + 1 && (h.table.Length <= MIN_SIZE || h.table.Length <= 3 * (n + 1))
    ensures h.Model() == Apply(old(h.Model()), op) && a == Reply(old(h.Model()), op)
  {
    SizeAtLeastMin(h.table.Length);
    match op {
      case SetOp(k, v) =>
        var rc := h.Set(k, v, true);
        a := Done(rc);
      case DelOp(k) =>
        var rc := h.Del(k, true);
        a := Done(rc);
      case GetOp(k, d) =>
        var v := h.Get(k, d);
        a := Value(v);
      case IsSetOp(k) =>
        var b := h.IsSet(k);
        a := Flag(b);
    }
  }

  /** With allocation succeeding, every run of set, del, get and isset on a new
      table answers exactly what a plain map would answer. */
  method Run<K(==), V>(hfunc: K -> Word, ops: seq<Op<K, V>>) returns (answers: seq<Answer<V>>)
    requires |ops| <= WORD / 16
    ensures answers == Replies(map[], ops)
  {
    var h := new HashTable<K, V>(hfunc);
    answers := [];
    var i := 0;
    while i < |ops|
      invariant 0 <= i <= |ops| && fresh(h) && fresh(h.table)
      invariant h.Valid() && h.LoadOk()
      invariant h.fill <= i && (h.table.Length <= MIN_SIZE || h.table.Length <= 3 * i)
      invariant h.Model() == ApplyAll(map[], ops[..i])
      invariant answers == Replies(map[], ops[..i])
    {
      assert ops[..i + 1][..i] == ops[..i];
      var a := Do(h, ops[i], i);
      answers := answers + [a];
      i := i + 1;
    }
    assert ops[..i] == ops;
  }
}
