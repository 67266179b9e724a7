/** One collection of the in-memory store (server/storage.ts): a JavaScript
    `Map<number, R>` together with the collection's own id counter. */
module Tables {
  import opened Wrappers
  import opened Sequences

  /** `rows` is the map, `order` the order in which a `Map` iterates its keys
      (first insertion first; `set` on a key already present keeps its place),
      and `next` the id counter: the id the next create hands out. */
  datatype Table<R> = Table(rows: map<int, R>, order: seq<int>, next: int)

  /** The invariant every collection keeps: the counter starts at 1 and every key
      lies in [1, next); the iteration order lists each key exactly once and
      ascends, so insertion order is ascending-id order. */
  ghost predicate Valid<R>(t: Table<R>) {
    && t.next >= 1
    && Increasing(t.order)
    && (forall k :: k in t.rows <==> k in t.order)
    && (forall k :: k in t.rows ==> 1 <= k < t.next)
  }

  lemma OrderInRows<R>(t: Table<R>)
    requires Valid(t)
    ensures forall i :: 0 <= i < |t.order| ==> t.order[i] in t.rows
  {
    assert forall i :: 0 <= i < |t.order| ==> t.order[i] in t.order;
  }

  /** A fresh collection, as the constructor sets it up: an empty `Map` and a
      counter at 1. */
  function Empty<R>(): (t: Table<R>)
    ensures Valid(t) && t.next == 1
    ensures forall k :: k !in t.rows
  {
    Table(map[], [], 1)
  }

  /** `Map.get(id)`: the record stored under `id`, or nothing; it never fails,
      and ids outside [1, next) are simply absent. */
  function Get<R>(t: Table<R>, id: int): (r: Option<R>)
    ensures r.Some? <==> id in t.rows
    ensures r.Some? ==> r.value == t.rows[id]
    ensures Valid(t) && (id < 1 || id >= t.next) ==> r.None?
  {
    if id in t.rows then Some(t.rows[id]) else None
  }

  /** The records in iteration order: `Array.from(map.values())`. */
  function Values<R>(t: Table<R>): (r: seq<R>)
    requires Valid(t)
    ensures |r| == |t.order|
    ensures forall i :: 0 <= i < |r| ==> t.order[i] in t.rows && r[i] == t.rows[t.order[i]]
  {
    OrderInRows(t);
    Project(t.rows, t.order)
  }

  /** `getAll` is the query every record passes. */
  lemma ValuesSelectsAll<R>(t: Table<R>)
    requires Valid(t)
    ensures Selects(t, Everything(), Values(t))
  {
    OrderInRows(t);
    assert MatchingKeys(t, Everything(), t.order);
  }

  /** The create step: the counter's value is the new key, the counter rises by
      one, and the record goes in under that key, last in iteration order. */
  function Insert<R>(t: Table<R>, r: R): (t': Table<R>)
    requires Valid(t)
    ensures Valid(t')
    ensures t.next !in t.rows
    ensures t'.next == t.next + 1 && t'.order == t.order + [t.next]
    ensures forall k :: Get(t', k) == if k == t.next then Some(r) else Get(t, k)
  {
    var t' := Table(t.rows[t.next := r], t.order + [t.next], t.next + 1);
    assert t.next !in t.order;
    assert forall i :: 0 <= i < |t.order| ==> t.order[i] in t.order;
    assert Valid(t');
    t'
  }

  /** A create lists the new record last. */
  lemma InsertAppends<R>(t: Table<R>, r: R)
    requires Valid(t)
    ensures Values(Insert(t, r)) == Values(t) + [r]
  {
    var t' := Insert(t, r);
    OrderInRows(t);
    assert Values(t') == Values(t) + [r];
  }

  /** `Map.set(id, r)` on a key already present: the record is replaced, the key
      keeps its place in iteration order, the counter is untouched. */
  function Put<R>(t: Table<R>, id: int, r: R): (t': Table<R>)
    requires Valid(t) && id in t.rows
    ensures Valid(t')
    ensures t'.next == t.next && t'.order == t.order
    ensures forall k :: Get(t', k) == if k == id then Some(r) else Get(t, k)
  {
    t.(rows := t.rows[id := r])
  }

  /** An updated record keeps its place in iteration order and every other
      record keeps its value. */
  lemma PutKeepsPosition<R>(t: Table<R>, i: int, r: R)
    requires Valid(t) && 0 <= i < |t.order|
    ensures t.order[i] in t.rows
    ensures Values(Put(t, t.order[i], r)) == Values(t)[i := r]
  {
    OrderInRows(t);
    var t' := Put(t, t.order[i], r);
    forall j | 0 <= j < |t.order|
      ensures Values(t')[j] == Values(t)[i := r][j]
    {
      assert Get(t', t.order[j]) == if t.order[j] == t.order[i] then Some(r) else Get(t, t.order[j]);
      if j != i {
        assert t.order[j] != t.order[i];
      }
    }
  }

  /** `Map.delete(id)`: only that key goes, from the map and from the
      iteration order; the counter is untouched, so the id is not handed out
      again. Deleting an absent key changes nothing. */
  function Remove<R>(t: Table<R>, id: int): (t': Table<R>)
    requires Valid(t)
    ensures Valid(t')
    ensures t'.next == t.next
    ensures forall k :: Get(t', k) == if k == id then None else Get(t, k)
    ensures id !in t.rows ==> t' == t
  {
    WithoutIncreasing(t.order, id);
    if id !in t.order then WithoutAbsent(t.order, id); t
    else Table(t.rows - {id}, Without(t.order, id), t.next)
  }

  /** A second delete of the same id finds nothing and changes nothing. */
  lemma RemoveTwice<R>(t: Table<R>, id: int)
    requires Valid(t)
    ensures id !in Remove(t, id).rows
    ensures Remove(Remove(t, id), id) == Remove(t, id)
  {
    assert Get(Remove(t, id), id) == None;
  }

  /** `p` as a filter that every record passes. */
  function Everything<R>(): R -> bool {
    _ => true
  }

  /** `ks` lists, in ascending order, exactly the keys whose record satisfies `p`. */
  ghost predicate MatchingKeys<R>(t: Table<R>, p: R -> bool, ks: seq<int>) {
    && Increasing(ks)
    && (forall i :: 0 <= i < |ks| ==> ks[i] in t.rows)
    && (forall k :: k in ks <==> k in t.rows && p(t.rows[k]))
  }

  /** The reference meaning of a query: `r` holds exactly the records that
      satisfy `p`, in ascending key order. */
  ghost predicate Selects<R>(t: Table<R>, p: R -> bool, r: seq<R>) {
    exists ks :: MatchingKeys(t, p, ks) && r == Project(t.rows, ks)
  }

  /** A query has only one possible answer. */
  lemma SelectsUnique<R>(t: Table<R>, p: R -> bool, r1: seq<R>, r2: seq<R>)
    requires Selects(t, p, r1) && Selects(t, p, r2)
    ensures r1 == r2
  {
    var ks1 :| MatchingKeys(t, p, ks1) && r1 == Project(t.rows, ks1);
    var ks2 :| MatchingKeys(t, p, ks2) && r2 == Project(t.rows, ks2);
    IncreasingUnique(ks1, ks2);
  }

  /** `Array.from(map.values()).filter(p)`. */
  function Where<R>(t: Table<R>, p: R -> bool): (r: seq<R>)
    requires Valid(t)
    ensures Selects(t, p, r)
  {
    OrderInRows(t);
    FilterProject(t.rows, t.order, p);
    KeepIncreasing(t.rows, t.order, p);
    assert MatchingKeys(t, p, Keep(t.rows, t.order, p));
    Filter(Values(t), p)
  }

  /** Two filters that agree on every stored record select the same records. */
  lemma WhereAgree<R>(t: Table<R>, p: R -> bool, q: R -> bool)
    requires Valid(t)
    requires forall k :: k in t.rows ==> p(t.rows[k]) == q(t.rows[k])
    ensures Where(t, p) == Where(t, q)
  {
    assert Selects(t, p, Where(t, p));
    var ks :| MatchingKeys(t, p, ks) && Where(t, p) == Project(t.rows, ks);
    assert MatchingKeys(t, q, ks);
    SelectsUnique(t, q, Where(t, p), Where(t, q));
  }

  /** A filter that every stored record passes selects all of them, in order. */
  lemma WhereEverything<R>(t: Table<R>, p: R -> bool)
    requires Valid(t)
    requires forall k :: k in t.rows ==> p(t.rows[k])
    ensures Where(t, p) == Values(t)
  {
    WhereAgree(t, p, Everything());
    ValuesSelectsAll(t);
    SelectsUnique(t, Everything(), Where(t, Everything()), Values(t));
  }

  /** `x` is the record under the smallest key whose record satisfies `p`. */
  ghost predicate IsEarliest<R>(t: Table<R>, p: R -> bool, x: R) {
    exists k :: k in t.rows && t.rows[k] == x && p(x) &&
      forall j :: j in t.rows && j < k ==> !p(t.rows[j])
  }

  /** `Array.from(map.values()).find(p)`: the earliest-inserted record that
      satisfies `p`, or nothing when none does. */
  function Find<R>(t: Table<R>, p: R -> bool): (r: Option<R>)
    requires Valid(t)
    ensures r.None? <==> forall k :: k in t.rows ==> !p(t.rows[k])
    ensures r.Some? ==> IsEarliest(t, p, r.value)
  {
    var r := First(Values(t), p);
    FirstIsHeadOfFilter(Values(t), p);
    FindSpec(t, p);
    r
  }

  lemma FindSpec<R>(t: Table<R>, p: R -> bool)
    requires Valid(t)
    ensures First(Values(t), p).None? <==> forall k :: k in t.rows ==> !p(t.rows[k])
    ensures First(Values(t), p).Some? ==> IsEarliest(t, p, First(Values(t), p).value)
  {
    var xs := Values(t);
    FirstIsHeadOfFilter(xs, p);
    var hits := Where(t, p);
    var ks :| MatchingKeys(t, p, ks) && hits == Project(t.rows, ks);
    if ks == [] {
      forall k | k in t.rows ensures !p(t.rows[k]) {
        assert k !in ks;
      }
    } else {
      var k0 := ks[0];
      assert k0 in ks;
      assert First(xs, p) == Some(t.rows[k0]);
      forall j | j in t.rows && j < k0 ensures !p(t.rows[j]) {
        if p(t.rows[j]) {
          assert j in ks;
          HeadIsMin(ks, j);
        }
      }
      assert IsEarliest(t, p, t.rows[k0]);
    }
  }

  /** When the first record to satisfy `p` is inserted and another record
      follows, `find` keeps returning the first, whatever the second is. */
  lemma FindKeepsFirst<R>(t: Table<R>, a: R, b: R, p: R -> bool)
    requires Valid(t) && p(a)
    requires forall k :: k in t.rows ==> !p(t.rows[k])
    ensures Find(Insert(Insert(t, a), b), p) == Some(a)
  {
    var t2 := Insert(Insert(t, a), b);
    assert Get(t2, t.next) == Some(a);
    var r := Find(t2, p);
    var k :| k in t2.rows && t2.rows[k] == r.value && p(r.value) &&
      forall j :: j in t2.rows && j < k ==> !p(t2.rows[j]);
    assert Get(t2, k) == if k == t.next + 1 then Some(b) else if k == t.next then Some(a) else Get(t, k);
    assert k == t.next;
  }

  /** The store's state-changing operations on one collection. `Modify` is an
      update that computes the new record from the stored one (`update*`,
      `markAlertAsRead`); on a missing key it changes nothing. */
  datatype Op<!R> = Create(r: R) | Modify(id: int, f: R -> R) | Delete(id: int)

  function Apply<R>(t: Table<R>, op: Op<R>): (t': Table<R>)
    requires Valid(t)
    ensures Valid(t')
  {
    match op
    case Create(r) => Insert(t, r)
    case Modify(id, f) => if id in t.rows then Put(t, id, f(t.rows[id])) else t
    case Delete(id) => Remove(t, id)
  }

  /** The collection after a sequence of operations, first to last. */
  function Run<R>(t: Table<R>, ops: seq<Op<R>>): (t': Table<R>)
    requires Valid(t)
    ensures Valid(t')
    decreases |ops|
  {
    if ops == [] then t else Run(Apply(t, ops[0]), ops[1..])
  }

  /** How many creates a sequence of operations holds. */
  function CreateCount<R>(ops: seq<Op<R>>): nat {
    if ops == [] then 0 else (if ops[0].Create? then 1 else 0) + CreateCount(ops[1..])
  }

  /** The counter rises by exactly one per create and never falls, and every
      key that appears along the way is at least the counter's starting value. */
  lemma {:induction false} RunIssuesFreshIds<R>(t: Table<R>, ops: seq<Op<R>>)
    requires Valid(t)
    ensures Run(t, ops).next == t.next + CreateCount(ops)
    ensures forall k :: k in Run(t, ops).rows && k !in t.rows ==> k >= t.next
    decreases |ops|
  {
    if ops != [] {
      var t1 := Apply(t, ops[0]);
      RunIssuesFreshIds(t1, ops[1..]);
      assert forall k :: k in t1.rows && k !in t.rows ==> k >= t.next by {
        match ops[0]
        case Create(r) =>
          assert forall k :: k in t1.rows <==> Get(t1, k).Some?;
        case Modify(id, f) =>
        case Delete(id) =>
          assert forall k :: k in t1.rows <==> Get(t1, k).Some?;
      }
    }
  }

  /** Ids are never reused: an id below the counter that is no longer (or was
      never) in the collection stays absent whatever follows. */
  lemma NeverReused<R>(t: Table<R>, ops: seq<Op<R>>, id: int)
    requires Valid(t) && id < t.next && id !in t.rows
    ensures id !in Run(t, ops).rows
  {
    RunIssuesFreshIds(t, ops);
  }

  /** One create per record, in the order given. */
  function Creates<R>(rs: seq<R>): (ops: seq<Op<R>>)
    ensures |ops| == |rs| && forall i :: 0 <= i < |rs| ==> ops[i] == Create(rs[i])
  {
    seq(|rs|, i requires 0 <= i < |rs| => Create(rs[i]))
  }

  lemma RunCreatesStep<R>(t: Table<R>, rs: seq<R>)
    requires Valid(t) && rs != []
    ensures Run(t, Creates(rs)) == Run(Insert(t, rs[0]), Creates(rs[1..]))
  {
    var ops := Creates(rs);
    assert ops[0] == Create(rs[0]);
    assert ops[1..] == Creates(rs[1..]);
  }

  /** Creating records in sequence hands out consecutive ids from the counter
      and appends them to the iteration order in that order. */
  lemma {:induction false} RunCreatesOrder<R>(t: Table<R>, rs: seq<R>)
    requires Valid(t)
    ensures Run(t, Creates(rs)).order == t.order + Range(t.next, |rs|)
    ensures Run(t, Creates(rs)).next == t.next + |rs|
    decreases |rs|
  {
    if rs == [] {
      assert Range(t.next, 0) == [];
    } else {
      var t1 := Insert(t, rs[0]);
      RunCreatesStep(t, rs);
      RunCreatesOrder(t1, rs[1..]);
      var tail := Range(t.next + 1, |rs| - 1);
      calc {
        Run(t, Creates(rs)).order;
        Run(t1, Creates(rs[1..])).order;
        t1.order + tail;
        (t.order + [t.next]) + tail;
        { AppendAssoc(t.order, [t.next], tail); }
        t.order + ([t.next] + tail);
        { RangeCons(t.next, |rs|); }
        t.order + Range(t.next, |rs|);
      }
    }
  }

  /** Creating records in sequence lists them after the existing ones, in
      creation order. */
  lemma {:induction false} RunCreatesValues<R>(t: Table<R>, rs: seq<R>)
    requires Valid(t)
    ensures Values(Run(t, Creates(rs))) == Values(t) + rs
    decreases |rs|
  {
    if rs != [] {
      var t1 := Insert(t, rs[0]);
      RunCreatesStep(t, rs);
      calc {
        Values(Run(t, Creates(rs)));
        Values(Run(t1, Creates(rs[1..])));
        { RunCreatesValues(t1, rs[1..]); }
        Values(t1) + rs[1..];
        { InsertAppends(t, rs[0]); }
        (Values(t) + [rs[0]]) + rs[1..];
        { AppendAssoc(Values(t), [rs[0]], rs[1..]); assert [rs[0]] + rs[1..] == rs; }
        Values(t) + rs;
      }
    }
  }

  /** From a fresh collection, N creates assign ids 1..N and `getAll` lists the
      records in creation order. */
  lemma FreshCreates<R>(rs: seq<R>)
    ensures Run(Empty<R>(), Creates(rs)).order == Range(1, |rs|)
    ensures Values(Run(Empty<R>(), Creates(rs))) == rs
  {
    RunCreatesOrder(Empty<R>(), rs);
    RunCreatesValues(Empty<R>(), rs);
  }

  /** Deleting the record just created restores the collection, except that the
      counter has moved on. */
  lemma InsertThenRemove<R>(t: Table<R>, r: R)
    requires Valid(t)
    ensures Remove(Insert(t, r), t.next) == t.(next := t.next + 1)
  {
    assert t.next !in t.order;
    WithoutLast(t.order, t.next);
    assert t.rows[t.next := r] - {t.next} == t.rows;
  }
}
