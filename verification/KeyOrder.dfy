/** The order the source's maps iterate in, and which value it makes win where
    flattened keys collide. */
module KeyOrder {
  import opened Options
  import opened Json
  import opened Dotted
  import opened Flatten

  /** The order of strings, character by character; on their UTF-8 bytes it is
      the same. */
  predicate Less(a: string, b: string) {
    b != "" && (a == "" || a[0] < b[0] || (a[0] == b[0] && Less(a[1..], b[1..])))
  }

  lemma {:induction false} LessIsAsymmetric(a: string, b: string)
    requires Less(a, b)
    ensures a != b && !Less(b, a)
    decreases |a|
  {
    if a != "" && a[0] == b[0] {
      LessIsAsymmetric(a[1..], b[1..]);
    }
  }

  lemma {:induction false} LessIsTotal(a: string, b: string)
    requires a != b
    ensures Less(a, b) || Less(b, a)
    decreases |a|
  {
    if a != "" && b != "" && a[0] == b[0] {
      assert a == [a[0]] + a[1..] && b == [b[0]] + b[1..];
      LessIsTotal(a[1..], b[1..]);
    }
  }

  lemma {:induction false} LessIsTransitive(a: string, b: string, c: string)
    requires Less(a, b) && Less(b, c)
    ensures Less(a, c)
    decreases |a|
  {
    if a != "" && a[0] == b[0] && b[0] == c[0] {
      LessIsTransitive(a[1..], b[1..], c[1..]);
    }
  }

  /** Key by key. */
  predicate PathLess(p: Path, q: Path) {
    q != [] && (p == [] || Less(p[0], q[0]) || (p[0] == q[0] && PathLess(p[1..], q[1..])))
  }

  lemma {:induction false} PathLessIsAsymmetric(p: Path, q: Path)
    requires PathLess(p, q)
    ensures !PathLess(q, p)
    decreases |p|
  {
    if p != [] {
      if Less(p[0], q[0]) {
        LessIsAsymmetric(p[0], q[0]);
      } else {
        PathLessIsAsymmetric(p[1..], q[1..]);
      }
    }
  }

  // ----- sorted tables

  /** All keys of the entries come after `k`. */
  predicate After(k: string, es: Entries) {
    es.Entry? ==> Less(k, es.key) && After(k, es.rest)
  }

  predicate Sorted(o: Ordered)
    decreases o
  {
    o.Table? ==> SortedEntries(o.entries)
  }

  predicate SortedEntries(es: Entries)
    decreases es
  {
    es.Entry? ==> After(es.key, es.rest) && Sorted(es.value) && SortedEntries(es.rest)
  }

  function Insert(es: Entries, k: string, o: Ordered): Entries {
    if es.End? || Less(k, es.key) then Entry(k, o, es) else Entry(es.key, es.value, Insert(es.rest, k, o))
  }

  lemma {:induction false} AfterBoth(j: string, k: string, es: Entries)
    requires Less(j, k) && After(k, es)
    ensures After(j, es)
    decreases es
  {
    if es.Entry? {
      LessIsTransitive(j, k, es.key);
      AfterBoth(j, k, es.rest);
    }
  }

  lemma {:induction false} AfterInsert(j: string, es: Entries, k: string, o: Ordered)
    requires After(j, es) && Less(j, k)
    ensures After(j, Insert(es, k, o))
    decreases es
  {
    if es.Entry? && !Less(k, es.key) {
      AfterInsert(j, es.rest, k, o);
    }
  }

  lemma {:induction false} InsertKeepsSorted(es: Entries, fields: map<string, Json>, k: string, o: Ordered)
    requires k in fields && OrdersOf(es, fields - {k}) && SortedEntries(es)
    requires OrderOf(o, fields[k]) && Sorted(o)
    ensures OrdersOf(Insert(es, k, o), fields) && SortedEntries(Insert(es, k, o))
    decreases es
  {
    if es.End? {
      assert fields.Keys == (fields - {k}).Keys + {k} && fields - {k} == map[];
    } else if Less(k, es.key) {
      AfterBoth(k, es.key, es.rest);
    } else {
      LessIsTotal(k, es.key);
      assert fields - {k} - {es.key} == fields - {es.key} - {k};
      InsertKeepsSorted(es.rest, fields - {es.key}, k, o);
      AfterInsert(es.key, es.rest, k, o);
    }
  }

  /** Every value has a sorted order: the source's. */
  lemma {:induction false} SortedOrder(v: Json) returns (o: Ordered)
    ensures OrderOf(o, v) && Sorted(o)
    decreases v, 1
  {
    if v.Obj? {
      var es := SortedOrders(v, v.fields.Keys);
      assert Part(v.fields, v.fields.Keys) == v.fields;
      o := Table(es);
    } else {
      o := Value(v);
    }
  }

  lemma {:induction false} SortedOrders(v: Json, ks: set<string>) returns (es: Entries)
    requires v.Obj? && ks <= v.fields.Keys
    ensures OrdersOf(es, Part(v.fields, ks)) && SortedEntries(es)
    decreases v, 0, ks
  {
    if ks == {} {
      es := End;
      assert Part(v.fields, ks) == map[];
    } else {
      var k :| k in ks;
      var o := SortedOrder(v.fields[k]);
      var rest := SortedOrders(v, ks - {k});
      assert Part(v.fields, ks) - {k} == Part(v.fields, ks - {k});
      InsertKeepsSorted(rest, Part(v.fields, ks), k, o);
      es := Insert(rest, k, o);
    }
  }

  // ----- the paths in visiting order

  function Prepend(k: string, ps: seq<(Path, Json)>): seq<(Path, Json)> {
    seq(|ps|, i requires 0 <= i < |ps| => ([k] + ps[i].0, ps[i].1))
  }

  function PathVisits(o: Ordered): seq<(Path, Json)>
    decreases o
  {
    match o
    case Value(v) => [([], v)]
    case Table(es) => PathVisitsOf(es)
  }

  function PathVisitsOf(es: Entries): seq<(Path, Json)>
    decreases es
  {
    match es
    case End => []
    case Entry(k, o, rest) => Prepend(k, PathVisits(o)) + PathVisitsOf(rest)
  }

  function JoinAll(p: Path): string {
    if p == [] then "" else Join(p)
  }

  /** The bindings of some paths below `q`. */
  function Write(q: Path, ps: seq<(Path, Json)>): seq<(string, Json)> {
    seq(|ps|, i requires 0 <= i < |ps| => (JoinAll(q + ps[i].0), ps[i].1))
  }

  function PrefixOf(q: Path): Option<string> {
    if q == [] then None else Some(Join(q))
  }

  lemma UnderJoins(q: Path, k: string)
    ensures Under(PrefixOf(q), k) == Join(q + [k])
  {
    if q != [] { JoinLonger(q, k); } else { assert q + [k] == [k]; }
  }

  lemma WritePrepended(q: Path, k: string, ps: seq<(Path, Json)>)
    ensures Write(q, Prepend(k, ps)) == Write(q + [k], ps)
  {
    forall i | 0 <= i < |ps| ensures Write(q, Prepend(k, ps))[i] == Write(q + [k], ps)[i] {
      assert q + ([k] + ps[i].0) == q + [k] + ps[i].0;
    }
  }

  lemma {:induction false} VisitsArePaths(q: Path, o: Ordered)
    requires q != []
    ensures Visits(Join(q), o) == Write(q, PathVisits(o))
    decreases o
  {
    match o
    case Value(v) => assert q + [] == q;
    case Table(es) => VisitsOfArePaths(q, es);
  }

  lemma {:induction false} VisitsOfArePaths(q: Path, es: Entries)
    ensures VisitsOf(PrefixOf(q), es) == Write(q, PathVisitsOf(es))
    decreases es
  {
    if es.Entry? {
      UnderJoins(q, es.key);
      VisitsArePaths(q + [es.key], es.value);
      WritePrepended(q, es.key, PathVisits(es.value));
      VisitsOfArePaths(q, es.rest);
    }
  }

  function Paths(ps: seq<(Path, Json)>): PathBindings {
    set p | p in ps
  }

  /** A table's paths: those through one entry, and those through the others. */
  lemma PathLeavesSplit(fields: map<string, Json>, k: string)
    requires k in fields
    ensures PathLeaves(Obj(fields))
         == (set f | f in PathLeaves(fields[k]) :: ([k] + f.0, f.1)) + PathLeaves(Obj(fields - {k}))
  {
    var through := set f | f in PathLeaves(fields[k]) :: ([k] + f.0, f.1);
    var others := PathLeaves(Obj(fields - {k}));
    forall p | p in PathLeaves(Obj(fields)) ensures p in through || p in others {
      var j, f :| j in fields && f in PathLeaves(fields[j]) && p == ([j] + f.0, f.1);
      assert j != k ==> j in fields - {k} && (fields - {k})[j] == fields[j];
    }
    forall p | p in others ensures p in PathLeaves(Obj(fields)) {
      var j, f :| j in fields - {k} && f in PathLeaves((fields - {k})[j]) && p == ([j] + f.0, f.1);
      assert (fields - {k})[j] == fields[j];
    }
  }

  lemma PathsPrepended(k: string, ps: seq<(Path, Json)>)
    ensures Paths(Prepend(k, ps)) == set f | f in Paths(ps) :: ([k] + f.0, f.1)
  {
    forall f | f in Paths(ps) ensures ([k] + f.0, f.1) in Prepend(k, ps) {
      var i :| 0 <= i < |ps| && ps[i] == f;
      assert Prepend(k, ps)[i] == ([k] + f.0, f.1);
    }
  }

  lemma {:induction false} PathsAreLeaves(o: Ordered, v: Json)
    requires OrderOf(o, v)
    ensures Paths(PathVisits(o)) == PathLeaves(v)
    decreases o
  {
    if v.Obj? { PathsOfAreLeaves(o.entries, v.fields); }
  }

  lemma {:induction false} PathsOfAreLeaves(es: Entries, fields: map<string, Json>)
    requires OrdersOf(es, fields)
    ensures Paths(PathVisitsOf(es)) == PathLeaves(Obj(fields))
    decreases es
  {
    if es.Entry? {
      PathsAreLeaves(es.value, fields[es.key]);
      PathsOfAreLeaves(es.rest, fields - {es.key});
      PathLeavesSplit(fields, es.key);
      PathsPrepended(es.key, PathVisits(es.value));
      var head, tail := Prepend(es.key, PathVisits(es.value)), PathVisitsOf(es.rest);
      assert Paths(head + tail) == Paths(head) + Paths(tail);
    }
  }

  predicate Increasing(ps: seq<(Path, Json)>) {
    forall i, j :: 0 <= i < j < |ps| ==> PathLess(ps[i].0, ps[j].0)
  }

  lemma {:induction false} HeadsAfter(k: string, es: Entries)
    requires After(k, es)
    ensures forall p :: p in PathVisitsOf(es) ==> p.0 != [] && Less(k, p.0[0])
    decreases es
  {
    if es.Entry? { HeadsAfter(k, es.rest); }
  }

  lemma {:induction false} SortedIsIncreasing(o: Ordered)
    requires Sorted(o)
    ensures Increasing(PathVisits(o))
    decreases o
  {
    if o.Table? { SortedEntriesIncrease(o.entries); }
  }

  lemma {:induction false} SortedEntriesIncrease(es: Entries)
    requires SortedEntries(es)
    ensures Increasing(PathVisitsOf(es))
    decreases es
  {
    if es.Entry? {
      var ps := PathVisits(es.value);
      var head: seq<(Path, Json)>, tail: seq<(Path, Json)> := Prepend(es.key, ps), PathVisitsOf(es.rest);
      var all: seq<(Path, Json)> := head + tail;
      SortedIsIncreasing(es.value);
      SortedEntriesIncrease(es.rest);
      HeadsAfter(es.key, es.rest);
      forall i, j | 0 <= i < j < |all| ensures PathLess(all[i].0, all[j].0) {
        if j < |head| {
          assert head[i].0[1..] == ps[i].0 && head[j].0[1..] == ps[j].0;
        } else if i < |head| {
          assert tail[j - |head|] in tail;
        }
      }
    }
  }

  // ----- who wins

  lemma {:induction false} LastWins(m: map<string, Json>, bs: seq<(string, Json)>, i: nat)
    requires i < |bs| && forall j :: i < j < |bs| ==> bs[j].0 != bs[i].0
    ensures bs[i].0 in StoreAll(m, bs) && StoreAll(m, bs)[bs[i].0] == bs[i].1
    decreases |bs|
  {
    if i < |bs| - 1 {
      LastWins(m, bs[..|bs| - 1], i);
    }
  }

  /** Of all the leaves whose dotted name is `e`'s, `e` has the last path. */
  predicate IsLast(config: map<string, Json>, e: (Path, Json)) {
    && e in PathLeaves(Obj(config))
    && forall f :: f in PathLeaves(Obj(config)) && f != e && JoinAll(f.0) == JoinAll(e.0) ==> PathLess(f.0, e.0)
  }

  /** The tables visited in key order: where flattened keys collide, the leaf
      whose path comes last in key order has its value stored. */
  lemma LastInKeyOrderWins(base: map<string, Json>, config: map<string, Json>, es: Entries, e: (Path, Json))
    requires OrdersOf(es, config) && SortedEntries(es) && IsLast(config, e)
    ensures JoinAll(e.0) in Flat(base, es) && Flat(base, es)[JoinAll(e.0)] == e.1
  {
    var ps := PathVisitsOf(es);
    PathsOfAreLeaves(es, config);
    SortedEntriesIncrease(es);
    VisitsOfArePaths([], es);
    assert e in Paths(ps);
    var i :| 0 <= i < |ps| && ps[i] == e;
    var bs := VisitsOf(None, es);
    assert forall j :: 0 <= j < |ps| ==> [] + ps[j].0 == ps[j].0;
    forall j | i < j < |bs| ensures bs[j].0 != bs[i].0 {
      PathLessIsAsymmetric(ps[i].0, ps[j].0);
      assert ps[j] in Paths(ps);
    }
    LastWins(base, bs, i);
  }
}
