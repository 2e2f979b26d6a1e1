/** Flattening an agent's config tables into dotted keys
    (crates/agx/src/main.rs). */
module Flatten {
  import opened Options
  import opened Json
  import opened Dotted

  /** A value with the order in which its tables are visited. */
  datatype Ordered = Value(v: Json) | Table(entries: Entries)

  datatype Entries = End | Entry(key: string, value: Ordered, rest: Entries)

  predicate OrderOf(o: Ordered, v: Json)
    decreases o
  {
    if v.Obj? then o.Table? && OrdersOf(o.entries, v.fields) else o == Value(v)
  }

  predicate OrdersOf(es: Entries, fields: map<string, Json>)
    decreases es
  {
    match es
    case End => fields == map[]
    case Entry(k, o, rest) => k in fields && OrderOf(o, fields[k]) && OrdersOf(rest, fields - {k})
  }

  /** The name of an entry: the top level has no prefix. */
  function Under(prefix: Option<string>, k: string): string {
    if prefix.Some? then prefix.value + "." + k else k
  }

  // ----- the source's recursion

  /** What is stored for `o` under `key`, in order. */
  function Visits(key: string, o: Ordered): seq<(string, Json)>
    decreases o
  {
    match o
    case Value(v) => [(key, v)]
    case Table(es) => VisitsOf(Some(key), es)
  }

  function VisitsOf(prefix: Option<string>, es: Entries): seq<(string, Json)>
    decreases es
  {
    match es
    case End => []
    case Entry(k, o, rest) => Visits(Under(prefix, k), o) + VisitsOf(prefix, rest)
  }

  /** Stored one after the other: the last one under a name stays. */
  function StoreAll(m: map<string, Json>, bs: seq<(string, Json)>): map<string, Json> {
    if bs == [] then m
    else
      var b := bs[|bs| - 1];
      StoreAll(m, bs[..|bs| - 1])[b.0 := b.1]
  }

  lemma {:induction false} StoreAllConcat(m: map<string, Json>, bs: seq<(string, Json)>, cs: seq<(string, Json)>)
    ensures StoreAll(m, bs + cs) == StoreAll(StoreAll(m, bs), cs)
    decreases |cs|
  {
    if cs == [] {
      assert bs + cs == bs;
    } else {
      assert (bs + cs)[..|bs + cs| - 1] == bs + cs[..|cs| - 1];
      StoreAllConcat(m, bs, cs[..|cs| - 1]);
    }
  }

  /** `insert_config_value` */
  method InsertConfigValue(m: map<string, Json>, key: string, value: Ordered) returns (out: map<string, Json>)
    ensures out == StoreAll(m, Visits(key, value))
    ensures forall v :: OrderOf(value, v) ==> Stored(m, Leaves(key, v), out)
    decreases value
  {
    if value.Value? {
      out := m[key := value.v];
      assert [(key, value.v)][..0] == [];
    } else {
      out := m;
      var es := value.entries;
      while es.Entry?
        invariant es.End? || es == value.entries || es < value.entries
        invariant StoreAll(out, VisitsOf(Some(key), es)) == StoreAll(m, Visits(key, value))
        decreases es
      {
        ghost var before := out;
        out := InsertConfigValue(out, key + "." + es.key, es.value);
        StoreAllConcat(before, Visits(key + "." + es.key, es.value), VisitsOf(Some(key), es.rest));
        es := es.rest;
      }
    }
    forall v | OrderOf(value, v) ensures Stored(m, Leaves(key, v), out) {
      VisitsAreLeaves(key, value, v);
      StoresThem(m, Visits(key, value));
    }
  }

  /** The loop of `config_map_from_agent`, after the named settings `base`. */
  method ConfigMap(base: map<string, Json>, config: Entries) returns (out: map<string, Json>)
    ensures out == Flat(base, config)
    ensures forall fields :: OrdersOf(config, fields) ==> Stored(base, ConfigLeaves(fields), out)
  {
    out := base;
    var es := config;
    while es.Entry?
      invariant StoreAll(out, VisitsOf(None, es)) == Flat(base, config)
      decreases es
    {
      ghost var before := out;
      out := InsertConfigValue(out, es.key, es.value);
      StoreAllConcat(before, Visits(es.key, es.value), VisitsOf(None, es.rest));
      es := es.rest;
    }
    forall fields | OrdersOf(config, fields) ensures Stored(base, ConfigLeaves(fields), out) {
      FlatStores(base, config, fields);
    }
  }

  /** The flattened config, stored over `base`. */
  function Flat(base: map<string, Json>, config: Entries): map<string, Json> {
    StoreAll(base, VisitsOf(None, config))
  }

  // ----- the same without an order

  type Bindings = set<(string, Json)>

  /** What is stored for `v` under `key`: a binding for each value in it that
      is not a table. */
  function Leaves(key: string, v: Json): Bindings
    decreases v
  {
    if !v.Obj? then {(key, v)}
    else set k, e | k in v.fields && e in Leaves(key + "." + k, v.fields[k]) :: e
  }

  function TableLeaves(prefix: Option<string>, fields: map<string, Json>): Bindings {
    set k, e | k in fields && e in Leaves(Under(prefix, k), fields[k]) :: e
  }

  function ConfigLeaves(config: map<string, Json>): Bindings {
    TableLeaves(None, config)
  }

  function Names(bs: Bindings): set<string> {
    set e | e in bs :: e.0
  }

  /** `out` is `m` with the bindings stored over it; where two of them share a
      name, one has won. */
  predicate Stored(m: map<string, Json>, bs: Bindings, out: map<string, Json>) {
    && out.Keys == m.Keys + Names(bs)
    && forall n :: n in out ==> if n in Names(bs) then (n, out[n]) in bs else out[n] == m[n]
  }

  function Elements(bs: seq<(string, Json)>): Bindings {
    set b | b in bs
  }

  lemma {:induction false} StoresThem(m: map<string, Json>, bs: seq<(string, Json)>)
    ensures Stored(m, Elements(bs), StoreAll(m, bs))
  {
    if bs != [] {
      var front, b := bs[..|bs| - 1], bs[|bs| - 1];
      StoresThem(m, front);
      assert bs == front + [b];
      assert Elements(bs) == Elements(front) + {b};
      assert Names(Elements(bs)) == Names(Elements(front)) + {b.0};
    }
  }

  lemma LeavesOfTable(key: string, fields: map<string, Json>)
    ensures Leaves(key, Obj(fields)) == TableLeaves(Some(key), fields)
  {
    assert forall k :: Under(Some(key), k) == key + "." + k;
  }

  lemma TableLeavesSplit(prefix: Option<string>, fields: map<string, Json>, k: string)
    requires k in fields
    ensures TableLeaves(prefix, fields) == Leaves(Under(prefix, k), fields[k]) + TableLeaves(prefix, fields - {k})
  {
    forall b | b in TableLeaves(prefix, fields)
      ensures b in Leaves(Under(prefix, k), fields[k]) || b in TableLeaves(prefix, fields - {k})
    {
      var j :| j in fields && b in Leaves(Under(prefix, j), fields[j]);
      assert j != k ==> j in fields - {k} && (fields - {k})[j] == fields[j];
    }
    forall b | b in TableLeaves(prefix, fields - {k}) ensures b in TableLeaves(prefix, fields) {
      var j :| j in fields - {k} && b in Leaves(Under(prefix, j), (fields - {k})[j]);
      assert (fields - {k})[j] == fields[j];
    }
  }

  lemma {:induction false} VisitsAreLeaves(key: string, o: Ordered, v: Json)
    requires OrderOf(o, v)
    ensures Elements(Visits(key, o)) == Leaves(key, v)
    decreases o
  {
    if v.Obj? {
      VisitsAreTableLeaves(Some(key), o.entries, v.fields);
      LeavesOfTable(key, v.fields);
    }
  }

  lemma {:induction false} VisitsAreTableLeaves(prefix: Option<string>, es: Entries, fields: map<string, Json>)
    requires OrdersOf(es, fields)
    ensures Elements(VisitsOf(prefix, es)) == TableLeaves(prefix, fields)
    decreases es
  {
    if es.Entry? {
      var n := Under(prefix, es.key);
      VisitsAreLeaves(n, es.value, fields[es.key]);
      VisitsAreTableLeaves(prefix, es.rest, fields - {es.key});
      assert Elements(Visits(n, es.value) + VisitsOf(prefix, es.rest))
          == Elements(Visits(n, es.value)) + Elements(VisitsOf(prefix, es.rest));
      TableLeavesSplit(prefix, fields, es.key);
    }
  }

  lemma FlatStores(base: map<string, Json>, config: Entries, fields: map<string, Json>)
    requires OrdersOf(config, fields)
    ensures Stored(base, ConfigLeaves(fields), Flat(base, config))
  {
    VisitsAreTableLeaves(None, config, fields);
    StoresThem(base, VisitsOf(None, config));
  }

  // ----- order

  /** No two different values share a name. */
  predicate Functional(bs: Bindings) {
    forall e, f :: e in bs && f in bs && e.0 == f.0 ==> e == f
  }

  lemma SameStored(m: map<string, Json>, bs: Bindings, x: map<string, Json>, y: map<string, Json>)
    requires Functional(bs) && Stored(m, bs, x) && Stored(m, bs, y)
    ensures x == y
  {
    forall n | n in x ensures x[n] == y[n] {
      if n in Names(bs) {
        assert (n, x[n]) in bs && (n, y[n]) in bs && (n, x[n]).0 == (n, y[n]).0;
      }
    }
  }

  function Part(fields: map<string, Json>, ks: set<string>): map<string, Json> {
    map k | k in fields && k in ks :: fields[k]
  }

  /** Every value has an order. */
  lemma {:induction false} SomeOrder(v: Json) returns (o: Ordered)
    ensures OrderOf(o, v)
    decreases v, 1
  {
    if v.Obj? {
      var es := SomeOrders(v, v.fields.Keys);
      assert Part(v.fields, v.fields.Keys) == v.fields;
      o := Table(es);
    } else {
      o := Value(v);
    }
  }

  lemma {:induction false} SomeOrders(v: Json, ks: set<string>) returns (es: Entries)
    requires v.Obj? && ks <= v.fields.Keys
    ensures OrdersOf(es, Part(v.fields, ks))
    decreases v, 0, ks
  {
    if ks == {} {
      es := End;
      assert Part(v.fields, ks) == map[];
    } else {
      var k :| k in ks;
      var o := SomeOrder(v.fields[k]);
      var rest := SomeOrders(v, ks - {k});
      es := Entry(k, o, rest);
      assert Part(v.fields, ks) - {k} == Part(v.fields, ks - {k});
    }
  }

  function Append(es: Entries, k: string, o: Ordered): Entries {
    match es
    case End => Entry(k, o, End)
    case Entry(j, p, rest) => Entry(j, p, Append(rest, k, o))
  }

  lemma {:induction false} AppendVisits(prefix: Option<string>, es: Entries, k: string, o: Ordered)
    ensures VisitsOf(prefix, Append(es, k, o)) == VisitsOf(prefix, es) + Visits(Under(prefix, k), o)
    decreases es
  {
    if es.Entry? {
      AppendVisits(prefix, es.rest, k, o);
    }
  }

  lemma {:induction false} AppendOrders(es: Entries, fields: map<string, Json>, k: string, o: Ordered)
    requires k in fields && OrdersOf(es, fields - {k}) && OrderOf(o, fields[k])
    ensures OrdersOf(Append(es, k, o), fields)
    decreases es
  {
    if es.Entry? {
      assert fields - {k} - {es.key} == fields - {es.key} - {k};
      AppendOrders(es.rest, fields - {es.key}, k, o);
    } else {
      assert fields.Keys == (fields - {k}).Keys + {k};
      assert (fields - {k}) == map[];
    }
  }

  /** Some order visits a given leaf last. */
  lemma {:induction false} OrderEndingIn(key: string, v: Json, b: (string, Json)) returns (o: Ordered)
    requires b in Leaves(key, v)
    ensures OrderOf(o, v) && Visits(key, o) != [] && Visits(key, o)[|Visits(key, o)| - 1] == b
    decreases v, 1
  {
    if v.Obj? {
      LeavesOfTable(key, v.fields);
      var es := OrdersEndingIn(Some(key), v, b);
      o := Table(es);
    } else {
      o := Value(v);
    }
  }

  lemma {:induction false} OrdersEndingIn(prefix: Option<string>, v: Json, b: (string, Json)) returns (es: Entries)
    requires v.Obj? && b in TableLeaves(prefix, v.fields)
    ensures OrdersOf(es, v.fields)
    ensures VisitsOf(prefix, es) != [] && VisitsOf(prefix, es)[|VisitsOf(prefix, es)| - 1] == b
    decreases v, 0
  {
    var k :| k in v.fields && b in Leaves(Under(prefix, k), v.fields[k]);
    var o := OrderEndingIn(Under(prefix, k), v.fields[k], b);
    var front := SomeOrders(v, v.fields.Keys - {k});
    assert Part(v.fields, v.fields.Keys - {k}) == v.fields - {k};
    AppendOrders(front, v.fields, k, o);
    AppendVisits(prefix, front, k, o);
    es := Append(front, k, o);
  }

  /** However the tables of the config are visited, the result is the same. */
  ghost predicate AllOrdersAgree(base: map<string, Json>, config: map<string, Json>) {
    forall es, fs :: OrdersOf(es, config) && OrdersOf(fs, config) ==> Flat(base, es) == Flat(base, fs)
  }

  /** All orders agree if and only if no two different values of the config
      share a name. */
  lemma AllOrdersAgreeIff(base: map<string, Json>, config: map<string, Json>)
    ensures AllOrdersAgree(base, config) <==> Functional(ConfigLeaves(config))
  {
    var bs := ConfigLeaves(config);
    if Functional(bs) {
      forall es, fs | OrdersOf(es, config) && OrdersOf(fs, config) ensures Flat(base, es) == Flat(base, fs) {
        FlatStores(base, es, config);
        FlatStores(base, fs, config);
        SameStored(base, bs, Flat(base, es), Flat(base, fs));
      }
    } else {
      var e, f :| e in bs && f in bs && e.0 == f.0 && e != f;
      var es := OrdersEndingIn(None, Obj(config), e);
      var fs := OrdersEndingIn(None, Obj(config), f);
      assert Flat(base, es)[e.0] == e.1 && Flat(base, fs)[f.0] == f.1;
    }
  }

  /** Two entries, in one order. */
  function Both(j: string, o: Ordered, k: string, p: Ordered): Entries {
    Entry(j, o, Entry(k, p, End))
  }

  lemma BothOrder(fields: map<string, Json>, j: string, o: Ordered, k: string, p: Ordered)
    requires j != k && fields.Keys == {j, k} && OrderOf(o, fields[j]) && OrderOf(p, fields[k])
    ensures OrdersOf(Both(j, o, k, p), fields)
  {
    assert fields - {j} - {k} == map[];
  }

  lemma SecondWins(base: map<string, Json>, j: string, o: Ordered, k: string, p: Ordered, name: string, v: Json)
    requires Visits(k, p) == [(name, v)]
    ensures name in Flat(base, Both(j, o, k, p)) && Flat(base, Both(j, o, k, p))[name] == v
  {
    assert VisitsOf(None, Entry(k, p, End)) == [(name, v)];
    StoreAllConcat(base, Visits(j, o), [(name, v)]);
  }

  /** With dots in keys two leaves can share a name, and the order decides. */
  lemma DotsCanCollide() returns (config: map<string, Json>, es: Entries, fs: Entries)
    ensures OrdersOf(es, config) && OrdersOf(fs, config)
    ensures "a.b" in Flat(map[], es) && "a.b" in Flat(map[], fs)
    ensures Flat(map[], es)["a.b"] == Int(2) && Flat(map[], fs)["a.b"] == Int(1)
  {
    var inner: map<string, Json> := map["b" := Int(1)];
    config := map["a" := Obj(inner), "a.b" := Int(2)];
    var one, two := Table(Entry("b", Value(Int(1)), End)), Value(Int(2));
    assert inner - {"b"} == map[];
    es, fs := Both("a", one, "a.b", two), Both("a.b", two, "a", one);
    BothOrder(config, "a", one, "a.b", two);
    BothOrder(config, "a.b", two, "a", one);
    assert "a" + "." + "b" == "a.b";
    assert Visits("a", one) == [("a.b", Int(1))];
    SecondWins(map[], "a", one, "a.b", two, "a.b", Int(2));
    SecondWins(map[], "a.b", two, "a", one, "a.b", Int(1));
  }

  // ----- the round trip

  predicate DotFree(v: Json) {
    v.Obj? ==> forall k :: k in v.fields ==> DotFreeKey(k) && DotFree(v.fields[k])
  }

  type PathBindings = set<(Path, Json)>

  function PathLeaves(v: Json): PathBindings {
    if !v.Obj? then {([], v)}
    else set k, e | k in v.fields && e in PathLeaves(v.fields[k]) :: ([k] + e.0, e.1)
  }

  /** The bindings by path, written with dots below `q`. */
  function Written(q: Path, v: Json): Bindings
    requires q != []
  {
    set e | e in PathLeaves(v) :: (Join(q + e.0), e.1)
  }

  lemma WrittenDown(q: Path, fields: map<string, Json>, b: (string, Json)) returns (k: string)
    requires q != [] && b in Written(q, Obj(fields))
    ensures k in fields && b in Written(q + [k], fields[k])
  {
    var e :| e in PathLeaves(Obj(fields)) && b == (Join(q + e.0), e.1);
    var j, f :| j in fields && f in PathLeaves(fields[j]) && e == ([j] + f.0, f.1);
    assert q + [j] + f.0 == q + e.0;
    k := j;
  }

  lemma WrittenUp(q: Path, fields: map<string, Json>, k: string, b: (string, Json))
    requires q != [] && k in fields && b in Written(q + [k], fields[k])
    ensures b in Written(q, Obj(fields))
  {
    var f :| f in PathLeaves(fields[k]) && b == (Join(q + [k] + f.0), f.1);
    assert q + [k] + f.0 == q + ([k] + f.0);
    assert ([k] + f.0, f.1) in PathLeaves(Obj(fields));
  }

  /** Each binding's name is its path below `q`, joined with dots. */
  lemma {:induction false} LeavesAreNamed(q: Path, v: Json)
    requires q != []
    ensures Leaves(Join(q), v) == Written(q, v)
    decreases v
  {
    if !v.Obj? {
      assert q + [] == q && ([], v) in PathLeaves(v);
    } else {
      forall k | k in v.fields ensures Leaves(Join(q) + "." + k, v.fields[k]) == Written(q + [k], v.fields[k]) {
        JoinLonger(q, k);
        LeavesAreNamed(q + [k], v.fields[k]);
      }
      forall b | b in Leaves(Join(q), v) ensures b in Written(q, v) {
        var k :| k in v.fields && b in Leaves(Join(q) + "." + k, v.fields[k]);
        WrittenUp(q, v.fields, k, b);
      }
      forall b | b in Written(q, v) ensures b in Leaves(Join(q), v) {
        var k := WrittenDown(q, v.fields, b);
        assert b in Leaves(Join(q) + "." + k, v.fields[k]);
      }
    }
  }

  lemma {:induction false} LeafPathsAreDotFree(v: Json, e: (Path, Json))
    requires DotFree(v) && e in PathLeaves(v)
    ensures DotFreePath(e.0)
    decreases v
  {
    if v.Obj? {
      var k, f :| k in v.fields && f in PathLeaves(v.fields[k]) && e == ([k] + f.0, f.1);
      LeafPathsAreDotFree(v.fields[k], f);
    }
  }

  /** There is one value at a path. */
  lemma {:induction false} OneLeafPerPath(v: Json, e: (Path, Json), f: (Path, Json))
    requires e in PathLeaves(v) && f in PathLeaves(v) && e.0 == f.0
    ensures e == f
    decreases v
  {
    if v.Obj? {
      var k, g :| k in v.fields && g in PathLeaves(v.fields[k]) && e == ([k] + g.0, g.1);
      var j, h :| j in v.fields && h in PathLeaves(v.fields[j]) && f == ([j] + h.0, h.1);
      assert e.0[0] == k && f.0[0] == j && e.0[1..] == g.0 && f.0[1..] == h.0;
      OneLeafPerPath(v.fields[k], g, h);
    }
  }

  /** A binding of the config belongs to a path. */
  lemma BindingHasPath(config: map<string, Json>, b: (string, Json)) returns (e: (Path, Json))
    requires b in ConfigLeaves(config)
    ensures e in PathLeaves(Obj(config)) && e.0 != [] && b == (Join(e.0), e.1)
  {
    var k :| k in config && b in Leaves(k, config[k]);
    LeavesAreNamed([k], config[k]);
    var f :| f in PathLeaves(config[k]) && b == (Join([k] + f.0), f.1);
    e := ([k] + f.0, f.1);
  }

  lemma PathHasBinding(config: map<string, Json>, e: (Path, Json))
    requires e in PathLeaves(Obj(config))
    ensures e.0 != [] && (Join(e.0), e.1) in ConfigLeaves(config)
  {
    var k, f :| k in config && f in PathLeaves(config[k]) && e == ([k] + f.0, f.1);
    LeavesAreNamed([k], config[k]);
    assert (Join([k] + f.0), f.1) in Written([k], config[k]) && Under(None, k) == k;
  }

  /** Keys without dots cannot collide. */
  lemma DotFreeIsFunctional(config: map<string, Json>)
    requires DotFree(Obj(config))
    ensures Functional(ConfigLeaves(config))
  {
    var bs := ConfigLeaves(config);
    forall b, c | b in bs && c in bs && b.0 == c.0 ensures b == c {
      var e := BindingHasPath(config, b);
      var f := BindingHasPath(config, c);
      LeafPathsAreDotFree(Obj(config), e);
      LeafPathsAreDotFree(Obj(config), f);
      SplitOfJoin(e.0);
      SplitOfJoin(f.0);
      OneLeafPerPath(Obj(config), e, f);
    }
  }

  // ----- rebuilding

  function Below(ps: PathBindings, k: string): PathBindings {
    set e | e in ps && e.0 != [] && e.0[0] == k :: (e.0[1..], e.1)
  }

  lemma BelowTable(fields: map<string, Json>, k: string)
    ensures Below(PathLeaves(Obj(fields)), k) == if k in fields then PathLeaves(fields[k]) else {}
  {
    var ps := PathLeaves(Obj(fields));
    forall e | k in fields && e in PathLeaves(fields[k]) ensures e in Below(ps, k) {
      var f := ([k] + e.0, e.1);
      assert f in ps && f.0[0] == k && f.0[1..] == e.0;
    }
    forall e | e in Below(ps, k) ensures k in fields && e in PathLeaves(fields[k]) {
      var f :| f in ps && f.0 != [] && f.0[0] == k && e == (f.0[1..], f.1);
      var j, g :| j in fields && g in PathLeaves(fields[j]) && f == ([j] + g.0, g.1);
      assert j == k && f.0[1..] == g.0;
    }
  }

  /** No table in it, below the top, is empty or holds only empty tables. */
  predicate Tidy(v: Json) {
    v.Obj? ==> forall k :: k in v.fields ==> PathLeaves(v.fields[k]) != {} && Tidy(v.fields[k])
  }

  /** A tree without its empty tables. */
  function Prune(v: Json): Json {
    if !v.Obj? then v else Obj(map k | k in v.fields && PathLeaves(v.fields[k]) != {} :: Prune(v.fields[k]))
  }

  lemma {:induction false} PruneKeepsPaths(v: Json)
    ensures PathLeaves(Prune(v)) == PathLeaves(v) && Tidy(Prune(v))
    decreases v
  {
    if v.Obj? {
      var w := Prune(v);
      forall k | k in v.fields ensures PathLeaves(Prune(v.fields[k])) == PathLeaves(v.fields[k])
          && Tidy(Prune(v.fields[k])) {
        PruneKeepsPaths(v.fields[k]);
      }
      assert forall k :: k in w.fields ==> PathLeaves(w.fields[k]) == PathLeaves(v.fields[k]);
    }
  }

  lemma RootIsLeaf(v: Json, x: Json)
    ensures ([], x) in PathLeaves(v) <==> !v.Obj? && x == v
  {
  }

  /** The paths and the values at them determine a tidy tree. */
  lemma {:induction false} TidyTreeIsUnique(v: Json, w: Json)
    requires Tidy(v) && Tidy(w) && PathLeaves(v) == PathLeaves(w)
    ensures v == w
    decreases v
  {
    RootIsLeaf(v, v);
    RootIsLeaf(w, v);
    RootIsLeaf(v, w);
    RootIsLeaf(w, w);
    if v.Obj? {
      forall k ensures k in v.fields <==> k in w.fields {
        BelowTable(v.fields, k);
        BelowTable(w.fields, k);
      }
      forall k | k in v.fields ensures v.fields[k] == w.fields[k] {
        BelowTable(v.fields, k);
        BelowTable(w.fields, k);
        TidyTreeIsUnique(v.fields[k], w.fields[k]);
      }
      assert v.fields == w.fields;
    }
  }

  /** The flattened keys of the config, taken apart at the dots. */
  function Parted(out: map<string, Json>, config: map<string, Json>): PathBindings {
    set n | n in out && n in Names(ConfigLeaves(config)) :: (Split(n), out[n])
  }

  lemma PartedIsPaths(base: map<string, Json>, config: map<string, Json>, out: map<string, Json>)
    requires DotFree(Obj(config))
    requires Stored(base, ConfigLeaves(config), out)
    ensures Parted(out, config) == PathLeaves(Obj(config))
  {
    var ps, bs := PathLeaves(Obj(config)), ConfigLeaves(config);
    forall p | p in Parted(out, config) ensures p in ps {
      var n :| n in out && n in Names(bs) && p == (Split(n), out[n]);
      var e := BindingHasPath(config, (n, out[n]));
      LeafPathsAreDotFree(Obj(config), e);
      SplitOfJoin(e.0);
    }
    DotFreeIsFunctional(config);
    forall e | e in ps ensures e in Parted(out, config) {
      PathHasBinding(config, e);
      LeafPathsAreDotFree(Obj(config), e);
      SplitOfJoin(e.0);
      assert Join(e.0) in Names(bs) && (Join(e.0), out[Join(e.0)]) in bs;
    }
  }

  /** With no dots in any key, the flattened keys taken apart at the dots are
      the paths of exactly one tree without empty tables: the configuration
      without its own. The named settings that were there before stay, unless
      a flattened key has the name of one. */
  lemma FlattenRoundTrip(base: map<string, Json>, config: map<string, Json>, out: map<string, Json>, tree: Json)
    requires DotFree(Obj(config))
    requires Stored(base, ConfigLeaves(config), out)
    ensures Tidy(tree) && PathLeaves(tree) == Parted(out, config) <==> tree == Prune(Obj(config))
    ensures forall n :: n in out && n !in Names(ConfigLeaves(config)) ==> n in base && out[n] == base[n]
  {
    PartedIsPaths(base, config, out);
    PruneKeepsPaths(Obj(config));
    if Tidy(tree) && PathLeaves(tree) == Parted(out, config) {
      TidyTreeIsUnique(tree, Prune(Obj(config)));
    }
  }
}
