/**
 The bounded cache of internal/dockercli/lru_cache.go against an unbounded list of all keys
 by recency of use.
 */
module LruCache {
  import opened Text

  datatype Op<K, V> = Get(key: K) | Set(key: K, value: V) | Clear

  // ------------------------------------------------------------- specification

  function Without<K(==)>(s: seq<K>, k: K): seq<K> {
    if s == [] then [] else (if s[0] == k then [] else [s[0]]) + Without(s[1..], k)
  }

  function Take<K>(s: seq<K>, n: nat): seq<K> { if |s| <= n then s else s[..n] }

  /** All keys ever set since the last clear, most recently used first; a miss is not a use. */
  function Recency<K(==), V>(ops: seq<Op<K, V>>, cap: nat): seq<K> {
    if ops == [] then [] else
      var was := Recency(ops[..|ops| - 1], cap);
      match ops[|ops| - 1]
      case Clear => []
      case Set(k, _) => [k] + Without(was, k)
      case Get(k) => if k in Take(was, cap) then [k] + Without(was, k) else was
  }

  /** The value last set for a key since the last clear. */
  function LastSet<K(==), V>(ops: seq<Op<K, V>>, k: K): Option<V> {
    if ops == [] then None else
      match ops[|ops| - 1]
      case Clear => None
      case Set(j, v) => if j == k then Some(v) else LastSet(ops[..|ops| - 1], k)
      case Get(_) => LastSet(ops[..|ops| - 1], k)
  }

  lemma {:induction false} WithoutElements<K(!new)>(s: seq<K>, k: K)
    ensures forall x :: x in Without(s, k) <==> x in s && x != k
    ensures NoDup(s) ==> NoDup(Without(s, k))
    ensures k !in s ==> Without(s, k) == s
  {
    if s != [] {
      WithoutElements(s[1..], k);
      assert s == [s[0]] + s[1..];
      if NoDup(s) { assert s[0] !in s[1..]; }
    }
  }

  lemma {:induction false} TakeCons<K>(x: K, s: seq<K>, n: nat)
    requires n > 0
    ensures Take([x] + s, n) == [x] + Take(s, n - 1)
  {
  }

  lemma {:induction false} WithoutCons<K>(x: K, s: seq<K>, k: K)
    ensures Without([x] + s, k) == (if x == k then [] else [x]) + Without(s, k)
  {
    assert ([x] + s)[1..] == s;
  }

  /** Dropping a key inside the cut and cutting one shorter: the order does not matter. */
  lemma {:induction false} WithoutTakeIn<K(!new)>(s: seq<K>, k: K, n: nat)
    requires NoDup(s) && k in Take(s, n)
    ensures n > 0 && Take(Without(s, k), n - 1) == Without(Take(s, n), k)
  {
    hide Take, Without;
    TakeIn(s, n);
    var x, rest := s[0], s[1..];
    assert s == [x] + rest && x !in rest;
    TakeCons(x, rest, n);
    WithoutCons(x, rest, k);
    WithoutCons(x, Take(rest, n - 1), k);
    if x == k {
      WithoutElements(rest, k);
      assert k !in Take(rest, n - 1) by { TakeIn(rest, n - 1); }
      WithoutElements(Take(rest, n - 1), k);
      assert Without(s, k) == rest && Without(Take(s, n), k) == Take(rest, n - 1);
    } else {
      WithoutTakeIn(rest, k, n - 1);
      TakeCons(x, Without(rest, k), n - 1);
    }
  }

  lemma {:induction false} TakeIn<K(!new)>(s: seq<K>, n: nat)
    ensures forall x :: x in Take(s, n) ==> x in s && n > 0
  {
  }

  /** Dropping a key beyond the cut does not change what is cut. */
  lemma {:induction false} WithoutTakeOut<K(!new)>(s: seq<K>, k: K, n: nat)
    requires NoDup(s) && k !in Take(s, n)
    ensures Take(Without(s, k), n) == Take(s, n)
  {
    if s != [] && n > 0 {
      var rest := s[1..];
      assert s == [s[0]] + rest;
      assert Take(s, n) == [s[0]] + Take(rest, n - 1);
      WithoutTakeOut(rest, k, n - 1);
      assert s[0] != k;
      assert Take(Without(s, k), n) == [s[0]] + Take(Without(rest, k), n - 1);
    }
  }

  lemma {:induction false} RecencyNoDup<K(!new), V>(ops: seq<Op<K, V>>, cap: nat)
    ensures NoDup(Recency(ops, cap))
  {
    if ops != [] {
      var was := Recency(ops[..|ops| - 1], cap);
      RecencyNoDup(ops[..|ops| - 1], cap);
      match ops[|ops| - 1]
      case Clear =>
      case Set(k, _) => WithoutElements(was, k);
      case Get(k) => WithoutElements(was, k);
    }
  }

  /** A key has been set since the last clear exactly when it is in the recency list. */
  lemma {:induction false} RecencyIsSet<K(!new), V>(ops: seq<Op<K, V>>, cap: nat, k: K)
    ensures k in Recency(ops, cap) <==> LastSet(ops, k).Some?
  {
    if ops != [] {
      var was := Recency(ops[..|ops| - 1], cap);
      RecencyIsSet(ops[..|ops| - 1], cap, k);
      match ops[|ops| - 1]
      case Clear =>
      case Set(j, _) => WithoutElements(was, j);
      case Get(j) => WithoutElements(was, j);
    }
  }

  // ------------------------------------------------------- when is a get a hit?

  /** The uses since the last clear, oldest first: sets and hits. */
  function Uses<K(==), V>(ops: seq<Op<K, V>>, cap: nat): seq<K> {
    if ops == [] then [] else
      var front := ops[..|ops| - 1];
      match ops[|ops| - 1]
      case Clear => []
      case Set(k, _) => Uses(front, cap) + [k]
      case Get(k) => if k in Take(Recency(front, cap), cap) then Uses(front, cap) + [k] else Uses(front, cap)
  }

  function ByLastUse<K(==)>(uses: seq<K>): seq<K> {
    if uses == [] then [] else [uses[|uses| - 1]] + Without(ByLastUse(uses[..|uses| - 1]), uses[|uses| - 1])
  }

  lemma {:induction false} RecencyIsByLastUse<K, V>(ops: seq<Op<K, V>>, cap: nat)
    ensures Recency(ops, cap) == ByLastUse(Uses(ops, cap))
  {
    if ops != [] { RecencyIsByLastUse(ops[..|ops| - 1], cap); }
  }

  lemma {:induction false} ByLastUseElements<K(!new)>(uses: seq<K>)
    ensures NoDup(ByLastUse(uses)) && forall x :: x in ByLastUse(uses) <==> x in uses
  {
    if uses != [] {
      var front, last := uses[..|uses| - 1], uses[|uses| - 1];
      ByLastUseElements(front);
      WithoutElements(ByLastUse(front), last);
      assert uses == front + [last];
    }
  }

  function Dropping<K(==)>(s: seq<K>, out: set<K>): seq<K> {
    if s == [] then [] else (if s[0] in out then [] else [s[0]]) + Dropping(s[1..], out)
  }

  lemma {:induction false} WithoutConcat<K>(a: seq<K>, b: seq<K>, k: K)
    ensures Without(a + b, k) == Without(a, k) + Without(b, k)
  {
    if a == [] {
      assert a + b == b;
    } else {
      var x, rest := a[0], a[1..];
      WithoutConcat(rest, b, k);
      hide Without;
      assert a == [x] + rest && a + b == [x] + (rest + b);
      WithoutCons(x, rest, k);
      WithoutCons(x, rest + b, k);
      var head := if x == k then [] else [x];
      assert head + (Without(rest, k) + Without(b, k)) == (head + Without(rest, k)) + Without(b, k);
    }
  }

  lemma {:induction false} DroppingMore<K>(s: seq<K>, out: set<K>, k: K)
    ensures Without(Dropping(s, out), k) == Dropping(s, out + {k})
  {
    if s != [] {
      DroppingMore(s[1..], out, k);
      WithoutConcat(if s[0] in out then [] else [s[0]], Dropping(s[1..], out), k);
    }
  }

  lemma {:induction false} DroppingNothing<K>(s: seq<K>)
    ensures Dropping(s, {}) == s
  {
    if s != [] { DroppingNothing(s[1..]); }
  }

  /** Later uses come first; of the earlier keys those not used again follow. */
  lemma {:induction false} ByLastUseConcat<K(!new)>(a: seq<K>, b: seq<K>)
    ensures ByLastUse(a + b) == ByLastUse(b) + Dropping(ByLastUse(a), Elements(b))
  {
    if b == [] {
      assert a + b == a && Elements(b) == {};
      DroppingNothing(ByLastUse(a));
    } else {
      var front, last := b[..|b| - 1], b[|b| - 1];
      assert (a + b)[..|a + b| - 1] == a + front && Elements(b) == Elements(front) + {last};
      ByLastUseConcat(a, front);
      WithoutConcat(ByLastUse(front), Dropping(ByLastUse(a), Elements(front)), last);
      DroppingMore(ByLastUse(a), Elements(front), last);
    }
  }

  lemma {:induction false} DistinctLength<K(!new)>(s: seq<K>)
    requires NoDup(s)
    ensures |Elements(s)| == |s|
  {
    if s != [] {
      var front, last := s[..|s| - 1], s[|s| - 1];
      DistinctLength(front);
      assert Elements(s) == Elements(front) + {last} && last !in Elements(front);
    }
  }

  /** A key's place in the list is the number of different keys used after its last use. */
  lemma {:induction false} PlaceIsDistinctUses<K(!new)>(uses: seq<K>, i: nat)
    requires i < |uses| && uses[i] !in uses[i + 1..]
    ensures var place := |Elements(uses[i + 1..])|; place < |ByLastUse(uses)| && ByLastUse(uses)[place] == uses[i]
  {
    var a, b := uses[..i + 1], uses[i + 1..];
    assert uses == a + b;
    ByLastUseConcat(a, b);
    ByLastUseElements(b);
    DistinctLength(ByLastUse(b));
    assert Elements(ByLastUse(b)) == Elements(b);
    assert ByLastUse(a)[0] == uses[i];
  }

  lemma {:induction false} NoDupPlace<K(!new)>(s: seq<K>, i: nat, n: nat)
    requires NoDup(s) && i < |s|
    ensures s[i] in Take(s, n) <==> i < n
  {
    if i < n { assert Take(s, n)[i] == s[i]; }
  }

  /** A key is in the cache exactly when fewer keys than fit were used since its own last use. */
  lemma {:induction false} HitExactly<K(!new), V>(ops: seq<Op<K, V>>, cap: nat, i: nat)
    requires i < |Uses(ops, cap)| && Uses(ops, cap)[i] !in Uses(ops, cap)[i + 1..]
    ensures Uses(ops, cap)[i] in Take(Recency(ops, cap), cap) <==> |Elements(Uses(ops, cap)[i + 1..])| < cap
  {
    RecencyIsByLastUse(ops, cap);
    PlaceIsDistinctUses(Uses(ops, cap), i);
    RecencyNoDup(ops, cap);
    NoDupPlace(Recency(ops, cap), |Elements(Uses(ops, cap)[i + 1..])|, cap);
  }

  /** The value of a key is that of the last set, if no clear came after it. */
  lemma {:induction false} LastSetSays<K(!new), V(!new)>(ops: seq<Op<K, V>>, k: K, v: V)
    ensures LastSet(ops, k) == Some(v) <==>
            exists i :: && 0 <= i < |ops| && ops[i] == Op.Set(k, v)
                        && forall j :: i < j < |ops| ==> !ops[j].Clear? && (ops[j].Set? ==> ops[j].key != k)
  {
    if ops != [] {
      var n := |ops| - 1;
      var front := ops[..n];
      LastSetSays(front, k, v);
      if LastSet(ops, k) == Some(v) && ops[n] != Op.Set(k, v) {
        var i :| && 0 <= i < n && front[i] == Op.Set(k, v) && forall j :: i < j < n ==> !front[j].Clear? && (front[j].Set? ==> front[j].key != k);
        assert forall j :: i < j < n ==> ops[j] == front[j];
        assert ops[i] == Op.Set(k, v);
      }
      if i :| 0 <= i < |ops| && ops[i] == Op.Set(k, v) && forall j :: i < j < |ops| ==> !ops[j].Clear? && (ops[j].Set? ==> ops[j].key != k) {
        if i < n {
          assert front[i] == Op.Set(k, v) && forall j :: i < j < n ==> front[j] == ops[j];
        }
      }
    }
  }

  // -------------------------------------------------------------------- cache

  const DEFAULT_SIZE := 100

  /** `order` is the list, front first; `items` finds a key's entry. */
  class LRUCache<K(==, !new), V> {
    const maxSize: nat
    var items: map<K, V>
    var order: seq<K>
    /** The operations so far. */
    ghost var ops: seq<Op<K, V>>

    /** The list is the recency list cut to size; the entries hold the values last set. */
    ghost predicate Valid()
      reads this
    {
      && maxSize > 0
      && order == Take(Recency(ops, maxSize), maxSize)
      && items.Keys == Elements(order)
      && forall k :: k in items ==> LastSet(ops, k) == Some(items[k])
    }

    constructor (size: int)
      ensures Valid() && ops == [] && maxSize == if size <= 0 then 100 else size
    {
      maxSize := if size <= 0 then DEFAULT_SIZE else size;
      items, order, ops := map[], [], [];
    }

    method Get(key: K) returns (r: Option<V>)
      requires Valid()
      modifies this`order, this`ops
      ensures Valid() && ops == old(ops) + [Op.Get(key)]
      ensures r.Some? <==> key in Take(Recency(old(ops), maxSize), maxSize)
      ensures r.Some? ==> r == LastSet(old(ops), key)
      ensures order == if r.Some? then [key] + Without(old(order), key) else old(order)
    {
      ghost var before := ops;
      ops := ops + [Op.Get(key)];
      assert ops[..|ops| - 1] == before;
      if key in items {
        MovedToFront(before, maxSize, key, order);
        order := [key] + Without(order, key);
        r := Some(items[key]);
      } else {
        r := None;
      }
    }

    /** Drops the least recently used entries until one more fits. */
    method Evict()
      requires maxSize > 0 && NoDup(order) && items.Keys == Elements(order)
      modifies this`items, this`order
      ensures order == Take(old(order), maxSize - 1)
      ensures items.Keys == Elements(order) && forall k :: k in items ==> k in old(items) && items[k] == old(items)[k]
    {
      while |order| >= maxSize
        invariant order <= old(order) && (order == old(order) || |order| >= maxSize - 1)
        invariant items.Keys == Elements(order) && forall k :: k in items ==> k in old(items) && items[k] == old(items)[k]
        decreases |order|
      {
        var oldest := order[|order| - 1];
        assert oldest !in order[..|order| - 1];
        assert Elements(order) == Elements(order[..|order| - 1]) + {oldest};
        order := order[..|order| - 1];
        items := items - {oldest};
      }
    }

    method Set(key: K, value: V)
      requires Valid()
      modifies this`items, this`order, this`ops
      ensures Valid() && ops == old(ops) + [Op.Set(key, value)]
      ensures order == Take([key] + Without(old(order), key), maxSize)
      ensures key in items && items[key] == value
    {
      hide Recency, LastSet, Without, Take, NoDup;
      ghost var before := ops;
      ops := ops + [Op.Set(key, value)];
      SetSpec(before, maxSize, key, value, order);
      ghost var was := order;
      if key in items {
        MovedToFront(before, maxSize, key, order);
        order := [key] + Without(order, key);
        items := items[key := value];
      } else {
        PushedToFront(before, maxSize, key, order);
        Evict();
        order := [key] + order;
        items := items[key := value];
        assert Elements(order) == {key} + Elements(order[1..]);
      }
    }

    method Len() returns (n: nat)
      requires Valid()
      ensures n == |items| && n <= maxSize && n == |Take(Recency(ops, maxSize), maxSize)|
    {
      RecencyNoDup(ops, maxSize);
      assert NoDup(order);
      DistinctLength(order);
      assert |items.Keys| == |items|;
      n := |order|;
    }

    method Clear()
      requires Valid()
      modifies this`items, this`order, this`ops
      ensures Valid() && ops == old(ops) + [Op.Clear] && order == []
    {
      ops := ops + [Op.Clear];
      items, order := map[], [];
    }
  }

  lemma {:induction false} MovedToFront<K(!new), V>(ops: seq<Op<K, V>>, cap: nat, key: K, order: seq<K>)
    requires order == Take(Recency(ops, cap), cap) && key in order
    ensures [key] + Without(order, key) == Take([key] + Without(Recency(ops, cap), key), cap)
    ensures Elements([key] + Without(order, key)) == Elements(order)
    ensures [key] + Without(order, key) == Take([key] + Without(order, key), cap)
  {
    RecencyNoDup(ops, cap);
    WithoutTakeIn(Recency(ops, cap), key, cap);
    WithoutElements(order, key);
    var rest := Without(Recency(ops, cap), key);
    assert Take([key] + rest, cap) == [key] + Take(rest, cap - 1);
  }

  lemma {:induction false} PushedToFront<K(!new), V>(ops: seq<Op<K, V>>, cap: nat, key: K, order: seq<K>)
    requires order == Take(Recency(ops, cap), cap) && key !in order && cap > 0
    ensures [key] + Take(order, cap - 1) == Take([key] + Without(Recency(ops, cap), key), cap)
    ensures [key] + Take(order, cap - 1) == Take([key] + Without(order, key), cap)
  {
    RecencyNoDup(ops, cap);
    WithoutTakeOut(Recency(ops, cap), key, cap);
    WithoutElements(order, key);
    var rest := Without(Recency(ops, cap), key);
    assert Take([key] + rest, cap) == [key] + Take(rest, cap - 1);
    assert Take(rest, cap - 1) == Take(Take(rest, cap), cap - 1);
    assert Take([key] + order, cap) == [key] + Take(order, cap - 1);
    assert Take(Take(Recency(ops, cap), cap), cap - 1) == Take(Recency(ops, cap), cap - 1);
  }

  lemma {:induction false} SetSpec<K(!new), V>(ops: seq<Op<K, V>>, cap: nat, key: K, value: V, order: seq<K>)
    requires order == Take(Recency(ops, cap), cap)
    ensures var next := ops + [Op.Set(key, value)];
            && Recency(next, cap) == [key] + Without(Recency(ops, cap), key)
            && LastSet(next, key) == Some(value)
            && forall k :: k != key ==> LastSet(next, k) == LastSet(ops, k)
    ensures NoDup(order)
  {
    assert (ops + [Op.Set(key, value)])[..|ops|] == ops;
    RecencyNoDup(ops, cap);
  }
}
