/** Closing generated object schemas (crates/sdk/src/schema.rs). */
module Schema {
  import opened Json

  const TYPE: string := "type"
  const CLOSED: string := "additionalProperties"

  predicate IsObjectSchema(fields: map<string, Json>) {
    TYPE in fields && fields[TYPE] == Str("object")
  }

  /** The value after `enforce_openai_object_constraints`. */
  function Close(v: Json): Json {
    match v
    case Obj(fields) =>
      var closed := map k | k in fields :: Close(fields[k]);
      Obj(if IsObjectSchema(closed) && CLOSED !in closed then closed[CLOSED := Bool(false)] else closed)
    case Arr(xs) => Arr(seq(|xs|, i requires 0 <= i < |xs| => Close(xs[i])))
    case _ => v
  }

  /** `enforce_openai_object_constraints`, on the value it is given a
      reference to */
  method EnforceObjectConstraints(v: Json) returns (w: Json)
    ensures w == Close(v)
    decreases v
  {
    w := v;
    if v.Obj? {
      var closed, rest := v.fields, v.fields.Keys;
      while rest != {}
        invariant rest <= v.fields.Keys == closed.Keys
        invariant forall k :: k in closed ==> closed[k] == if k in rest then v.fields[k] else Close(v.fields[k])
        decreases rest
      {
        var k :| k in rest;
        var nested := EnforceObjectConstraints(v.fields[k]);
        closed := closed[k := nested];
        rest := rest - {k};
      }
      assert closed == map k | k in v.fields :: Close(v.fields[k]);
      if IsObjectSchema(closed) && CLOSED !in closed {
        closed := closed[CLOSED := Bool(false)];
      }
      w := Obj(closed);
    } else if v.Arr? {
      var xs := v.xs;
      for i := 0 to |xs|
        invariant |xs| == |v.xs|
        invariant forall j :: 0 <= j < |xs| ==> xs[j] == if j < i then Close(v.xs[j]) else v.xs[j]
      {
        var nested := EnforceObjectConstraints(xs[i]);
        xs := xs[i := nested];
      }
      w := Arr(xs);
    }
  }

  /** Every object schema at any depth says something about further members. */
  predicate AllClosed(v: Json) {
    match v
    case Obj(fields) =>
      && (IsObjectSchema(fields) ==> CLOSED in fields)
      && forall k :: k in fields ==> AllClosed(fields[k])
    case Arr(xs) => forall i :: 0 <= i < |xs| ==> AllClosed(xs[i])
    case _ => true
  }

  /** `w` is `v`, but for object schemas that said nothing about further
      members and now refuse them. */
  predicate OnlyCloses(v: Json, w: Json) {
    match v
    case Obj(fields) =>
      && w.Obj?
      && w.fields.Keys == fields.Keys + (if IsObjectSchema(fields) && CLOSED !in fields then {CLOSED} else {})
      && (CLOSED in w.fields && CLOSED !in fields ==> w.fields[CLOSED] == Bool(false))
      && forall k :: k in fields ==> OnlyCloses(fields[k], w.fields[k])
    case Arr(xs) => w.Arr? && |w.xs| == |xs| && forall i :: 0 <= i < |xs| ==> OnlyCloses(xs[i], w.xs[i])
    case _ => w == v
  }

  /** A type member is a string before exactly if it is after. */
  lemma CloseKeepsStrings(v: Json, s: string)
    ensures Close(v) == Str(s) <==> v == Str(s)
  {
  }

  /** Of one table: `additionalProperties` is set to false exactly where the
      type is `object` and the member is missing; no other key comes or goes. */
  lemma CloseAdds(fields: map<string, Json>)
    ensures
      var closed := Close(Obj(fields)).fields;
      if "type" in fields && fields["type"] == Str("object") && "additionalProperties" !in fields then
        closed.Keys == fields.Keys + {"additionalProperties"} && closed["additionalProperties"] == Bool(false)
      else closed.Keys == fields.Keys
  {
    if "type" in fields { CloseKeepsStrings(fields["type"], "object"); }
  }

  lemma {:induction false} CloseCloses(v: Json)
    ensures AllClosed(Close(v))
    decreases v
  {
    match v
    case Obj(fields) =>
      forall k | k in fields ensures AllClosed(Close(fields[k])) { CloseCloses(fields[k]); }
    case Arr(xs) =>
      forall i | 0 <= i < |xs| ensures AllClosed(Close(xs[i])) { CloseCloses(xs[i]); }
    case _ =>
  }

  lemma {:induction false} CloseOnlyCloses(v: Json)
    ensures OnlyCloses(v, Close(v))
    decreases v
  {
    match v
    case Obj(fields) =>
      forall k | k in fields ensures OnlyCloses(fields[k], Close(fields[k])) { CloseOnlyCloses(fields[k]); }
      if TYPE in fields { CloseKeepsStrings(fields[TYPE], "object"); }
    case Arr(xs) =>
      forall i | 0 <= i < |xs| ensures OnlyCloses(xs[i], Close(xs[i])) { CloseOnlyCloses(xs[i]); }
    case _ =>
  }

  /** A tree is left alone exactly if all its object schemas are closed. */
  lemma {:induction false} CloseIsIdentityIff(v: Json)
    ensures Close(v) == v <==> AllClosed(v)
    decreases v
  {
    if Close(v) == v { CloseCloses(v); }
    if AllClosed(v) {
      match v
      case Obj(fields) =>
        forall k | k in fields ensures Close(fields[k]) == fields[k] { CloseIsIdentityIff(fields[k]); }
        assert (map k | k in fields :: Close(fields[k])) == fields;
      case Arr(xs) =>
        forall i | 0 <= i < |xs| ensures Close(xs[i]) == xs[i] { CloseIsIdentityIff(xs[i]); }
        assert Close(v).xs == xs;
      case _ =>
    }
  }

  lemma CloseTwice(v: Json)
    ensures Close(Close(v)) == Close(v)
  {
    CloseCloses(v);
    CloseIsIdentityIff(Close(v));
  }

  /** Nothing else does both: the closed tree is the only one that closes
      every object schema of `v` and changes nothing more. */
  lemma {:induction false} CloseIsTheOnlyOne(v: Json, w: Json)
    ensures w == Close(v) <==> OnlyCloses(v, w)
    decreases v
  {
    CloseOnlyCloses(v);
    if OnlyCloses(v, w) {
      match v
      case Obj(fields) =>
        forall k | k in fields ensures w.fields[k] == Close(fields[k]) { CloseIsTheOnlyOne(fields[k], w.fields[k]); }
        if TYPE in fields { CloseKeepsStrings(fields[TYPE], "object"); }
        assert w.fields == Close(v).fields;
      case Arr(xs) =>
        forall i | 0 <= i < |xs| ensures w.xs[i] == Close(xs[i]) { CloseIsTheOnlyOne(xs[i], w.xs[i]); }
        assert w.xs == Close(v).xs;
      case _ =>
    }
  }
}
