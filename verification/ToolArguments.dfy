/**
 Moving required arguments that a model buried in a nested object back to the top level.
 Coercion of the moved value is a parameter.
 */
module ToolArguments {
  import opened Options

  /** An argument: an object, whose fields are looked into, or any other value. */
  datatype Value = Other(token: int) | Object(fields: map<string, Value>)

  /** A declared property; `nested` holds the names its own schema declares, if it has one. */
  datatype Property = Property(token: int, nested: Option<set<string>>)

  type Args = map<string, Value>

  type Properties = map<string, Property>

  type Coerce = (Value, Property) -> Value

  predicate Declares(props: Properties, parent: string, key: string) {
    parent in props && props[parent].nested.Some? && key in props[parent].nested.value
  }

  /** `key` lies in the object at `parent`, whose schema does not declare it. */
  predicate BuriedIn(args: Args, props: Properties, key: string, parent: string) {
    parent in args && args[parent].Object? && key in args[parent].fields && !Declares(props, parent, key)
  }

  ghost predicate OnlyBuriedIn(args: Args, props: Properties, key: string, parent: string) {
    BuriedIn(args, props, key, parent) && forall q :: BuriedIn(args, props, key, q) ==> q == parent
  }

  /** A key that is missing, declared, and buried in exactly this place. */
  ghost predicate Hoistable(args: Args, props: Properties, key: string, parent: string) {
    key !in args && key in props && OnlyBuriedIn(args, props, key, parent)
  }

  function Move(args: Args, props: Properties, key: string, parent: string, coerce: Coerce): Args
    requires key in props && BuriedIn(args, props, key, parent)
  {
    var fields := args[parent].fields;
    args[key := coerce(fields[key], props[key])][parent := Object(fields - {key})]
  }

  /** The arguments as an ordered map. */
  class Arguments {
    var keys: seq<string>
    var vals: Args

    ghost predicate Valid()
      reads this
    {
      && (forall i, j :: 0 <= i < j < |keys| ==> keys[i] != keys[j])
      && (forall k :: k in keys <==> k in vals)
    }

    constructor ()
      ensures Valid() && keys == [] && vals == map[]
    {
      keys, vals := [], map[];
    }

    method Set(key: string, value: Value)
      requires Valid()
      modifies this
      ensures Valid() && vals == old(vals)[key := value]
      ensures keys == if key in old(vals) then old(keys) else old(keys) + [key]
    {
      if key !in vals {
        keys := keys + [key];
      }
      vals := vals[key := value];
    }

    method FindUniqueBuried(props: Properties, key: string) returns (parent: Option<string>)
      requires Valid()
      ensures parent.Some? ==> OnlyBuriedIn(vals, props, key, parent.value)
      ensures parent.None? ==> forall p :: !OnlyBuriedIn(vals, props, key, p)
    {
      var n, last := 0, "";
      ghost var first := "";
      for i := 0 to |keys|
        invariant n >= 0
        invariant n == 0 ==> forall j :: 0 <= j < i ==> !BuriedIn(vals, props, key, keys[j])
        invariant n > 0 ==> last in keys[..i] && BuriedIn(vals, props, key, last)
        invariant n == 1 ==> forall j :: 0 <= j < i && BuriedIn(vals, props, key, keys[j]) ==> keys[j] == last
        invariant n > 1 ==> first != last && BuriedIn(vals, props, key, first)
      {
        var k := keys[i];
        if vals[k].Object? && key in vals[k].fields && !Declares(props, k, key) {
          first := last;
          n, last := n + 1, k;
        }
      }
      parent := if n == 1 then Some(last) else None;
      if n == 0 {
        forall p ensures !BuriedIn(vals, props, key, p) {
          if p in vals {
            assert p in keys;
          }
        }
      }
      if n == 1 {
        forall q | BuriedIn(vals, props, key, q) ensures q == last {
          assert q in keys;
        }
      }
    }

    /** Every required key in turn; the result is that of the traced run. */
    method HoistBuriedRequired(properties: Option<Properties>, required: seq<string>, coerce: Coerce)
      requires Valid()
      modifies this
      ensures Valid()
      ensures vals == if properties.None? then old(vals)
                      else HoistAll(Unmoved(old(vals)), properties.value, required, coerce).args
      ensures old(keys) <= keys
    {
      if properties.None? || required == [] {
        return;
      }
      var props := properties.value;
      for i := 0 to |required|
        invariant Valid() && old(keys) <= keys
        invariant vals == HoistAll(Unmoved(old(vals)), props, required[..i], coerce).args
      {
        assert required[..i + 1][..i] == required[..i];
        var key := required[i];
        if key in vals {
          continue;
        }
        if key !in props {
          continue;
        }
        var parent := FindUniqueBuried(props, key);
        if parent.None? {
          continue;
        }
        HoistIsMove(HoistAll(Unmoved(old(vals)), props, required[..i], coerce), props, key, parent.value, coerce);
        var nested := vals[parent.value].fields;
        Set(key, coerce(nested[key], props[key]));
        Set(parent.value, Object(nested - {key}));
      }
      assert required[..|required|] == required;
    }
  }

  // ---- The traced run ----

  /** The arguments, the value each key was given when it first appeared, and for each moved key
      the place it came from. */
  datatype Trace = Trace(args: Args, origin: Args, from: map<string, string>)

  function Unmoved(args: Args): Trace {
    Trace(args, args, map[])
  }

  /** The trace after moving `key` out of `p`. */
  function Moved(t: Trace, props: Properties, key: string, p: string, coerce: Coerce): Trace
    requires key in props && BuriedIn(t.args, props, key, p)
  {
    Trace(Move(t.args, props, key, p, coerce),
          t.origin[key := coerce(t.args[p].fields[key], props[key])], t.from[key := p])
  }

  ghost function Hoist(t: Trace, props: Properties, key: string, coerce: Coerce): Trace {
    if exists p :: Hoistable(t.args, props, key, p) then
      var p :| Hoistable(t.args, props, key, p);
      Moved(t, props, key, p, coerce)
    else t
  }

  ghost function HoistAll(t: Trace, props: Properties, required: seq<string>, coerce: Coerce): Trace {
    if required == [] then t
    else
      var n := |required| - 1;
      Hoist(HoistAll(t, props, required[..n], coerce), props, required[n], coerce)
  }

  lemma HoistSnoc(t: Trace, props: Properties, done: seq<string>, r: string, coerce: Coerce)
    ensures HoistAll(t, props, done + [r], coerce) == Hoist(HoistAll(t, props, done, coerce), props, r, coerce)
  {
    assert (done + [r])[..|done|] == done;
  }

  lemma HoistIsMove(t: Trace, props: Properties, key: string, p: string, coerce: Coerce)
    requires Hoistable(t.args, props, key, p)
    ensures Hoist(t, props, key, coerce) == Moved(t, props, key, p, coerce)
  {
  }

  /** The keys moved out of `parent`. */
  ghost function MovedFrom(t: Trace, parent: string): set<string> {
    set k | k in t.from && t.from[k] == parent
  }

  function Without(v: Value, gone: set<string>): Value {
    if v.Object? then Object(v.fields - gone) else v
  }

  /** Old keys keep their values, the only new keys are the moved ones. */
  ghost predicate KeysKept(before: Args, t: Trace) {
    && t.from.Keys !! before.Keys
    && t.args.Keys == t.origin.Keys == before.Keys + t.from.Keys
    && (forall k :: k in before ==> t.origin[k] == before[k])
  }

  /** Each value is what it was at first, less the fields that moved away. */
  ghost predicate ValuesKept(t: Trace) {
    t.args.Keys == t.origin.Keys && forall k :: k in t.args ==> t.args[k] == Without(t.origin[k], MovedFrom(t, k))
  }

  /** Each moved field is now, coerced, the value of its own required key, which was declared
      at the top level and buried in that place alone. */
  ghost predicate MovesRight(before: Args, t: Trace, props: Properties, required: seq<string>, coerce: Coerce) {
    forall k :: k in t.from ==>
                  k in required && k in props && k in t.origin && MovedRightly(before, t, props, k, coerce)
  }

  /** Nothing is overwritten and nothing is lost. */
  ghost predicate Conserved(before: Args, t: Trace, props: Properties, required: seq<string>, coerce: Coerce) {
    KeysKept(before, t) && ValuesKept(t) && MovesRight(before, t, props, required, coerce)
  }

  ghost predicate MovedRightly(before: Args, t: Trace, props: Properties, k: string, coerce: Coerce)
    requires k in t.from && k in t.origin && k in props
  {
    && BuriedIn(t.origin, props, k, t.from[k])
    && t.origin[k] == coerce(t.origin[t.from[k]].fields[k], props[k])
    && (forall q :: BuriedIn(before, props, k, q) ==> q == t.from[k])
  }

  lemma NothingCameFrom(before: Args, t: Trace, props: Properties, required: seq<string>, key: string, coerce: Coerce)
    requires MovesRight(before, t, props, required, coerce) && key !in t.origin
    ensures MovedFrom(t, key) == {}
  {
    forall x | x in t.from ensures t.from[x] != key {
      assert MovedRightly(before, t, props, x, coerce);
    }
  }

  lemma ValuesConserved(t: Trace, props: Properties, key: string, p: string, k: string, coerce: Coerce)
    requires key in props && BuriedIn(t.args, props, key, p) && key !in t.args && key !in t.from
    requires k == key ==> MovedFrom(t, key) == {}
    requires k != key ==> k in t.args && k in t.origin && t.args[k] == Without(t.origin[k], MovedFrom(t, k))
    ensures var u := Moved(t, props, key, p, coerce);
            u.args[k] == Without(u.origin[k], MovedFrom(u, k))
  {
    var u := Moved(t, props, key, p, coerce);
    MovedFromGrows(t, u, key, p, k);
    if k == key {
      WithoutNothing(u.origin[key]);
    } else if k == p {
      WithoutTwice(t.origin[p], MovedFrom(t, p), {key});
      assert u.args[p] == Without(t.args[p], {key});
    }
  }

  lemma ValuesStayKept(t: Trace, props: Properties, key: string, p: string, coerce: Coerce)
    requires ValuesKept(t) && MovedFrom(t, key) == {}
    requires key in props && BuriedIn(t.args, props, key, p) && key !in t.args && key !in t.from
    ensures ValuesKept(Moved(t, props, key, p, coerce))
  {
    var u := Moved(t, props, key, p, coerce);
    assert u.args.Keys == t.args.Keys + {key} == u.origin.Keys;
    forall k | k in u.args ensures u.args[k] == Without(u.origin[k], MovedFrom(u, k)) {
      ValuesConserved(t, props, key, p, k, coerce);
    }
  }

  lemma MovesStayRight(before: Args, t: Trace, props: Properties, required: seq<string>, key: string, p: string,
                       coerce: Coerce)
    requires Conserved(before, t, props, required, coerce) && Hoistable(t.args, props, key, p) && key in required
    ensures MovesRight(before, Moved(t, props, key, p, coerce), props, required, coerce)
  {
    var u := Moved(t, props, key, p, coerce);
    assert t.args[p] == Without(t.origin[p], MovedFrom(t, p));
    forall k | k in u.from
      ensures k in required && k in props && k in u.origin && MovedRightly(before, u, props, k, coerce)
    {
      if k == key {
        BurialWasUnique(before, t, props, key, p);
      } else {
        assert MovedRightly(before, t, props, k, coerce);
      }
    }
  }

  /** One required key keeps everything conserved. */
  lemma HoistConserves(before: Args, t: Trace, props: Properties, required: seq<string>, key: string, coerce: Coerce)
    requires Conserved(before, t, props, required, coerce) && key in required
    ensures Conserved(before, Hoist(t, props, key, coerce), props, required, coerce)
  {
    if exists p :: Hoistable(t.args, props, key, p) {
      var p :| Hoistable(t.args, props, key, p);
      HoistIsMove(t, props, key, p, coerce);
      NothingCameFrom(before, t, props, required, key, coerce);
      ValuesStayKept(t, props, key, p, coerce);
      MovesStayRight(before, t, props, required, key, p, coerce);
      KeysStayKept(before, t, props, key, p, coerce);
    }
  }

  lemma KeysStayKept(before: Args, t: Trace, props: Properties, key: string, p: string, coerce: Coerce)
    requires KeysKept(before, t) && Hoistable(t.args, props, key, p)
    ensures KeysKept(before, Moved(t, props, key, p, coerce))
  {
  }

  lemma WithoutTwice(v: Value, a: set<string>, b: set<string>)
    ensures Without(Without(v, a), b) == Without(v, a + b)
  {
    if v.Object? {
      assert v.fields - a - b == v.fields - (a + b);
    }
  }

  lemma WithoutNothing(v: Value)
    ensures Without(v, {}) == v
  {
    if v.Object? {
      assert v.fields - {} == v.fields;
    }
  }

  lemma MovedFromGrows(t: Trace, u: Trace, key: string, p: string, k: string)
    requires key !in t.from && u.from == t.from[key := p]
    ensures MovedFrom(u, k) == MovedFrom(t, k) + (if k == p then {key} else {})
  {
  }

  /** Earlier moves took away other keys only, so the place was unique from the start. */
  lemma BurialWasUnique(before: Args, t: Trace, props: Properties, key: string, p: string)
    requires KeysKept(before, t) && ValuesKept(t) && Hoistable(t.args, props, key, p)
    ensures forall q :: BuriedIn(before, props, key, q) ==> q == p
  {
    forall q | BuriedIn(before, props, key, q) ensures q == p {
      assert t.args[q] == Without(before[q], MovedFrom(t, q));
      assert BuriedIn(t.args, props, key, q);
    }
  }

  /** Over all required keys. */
  lemma {:induction false} HoistingConserves(before: Args, props: Properties, required: seq<string>, n: nat,
                                             coerce: Coerce)
    requires n <= |required|
    ensures Conserved(before, HoistAll(Unmoved(before), props, required[..n], coerce), props, required, coerce)
  {
    if n == 0 {
      forall k | k in before ensures before[k] == Without(before[k], MovedFrom(Unmoved(before), k)) {
        assert MovedFrom(Unmoved(before), k) == {};
        WithoutNothing(before[k]);
      }
    } else {
      HoistingConserves(before, props, required, n - 1, coerce);
      var done := required[..n - 1];
      assert required[..n][..n - 1] == done;
      HoistConserves(before, HoistAll(Unmoved(before), props, done, coerce), props, required, required[n - 1], coerce);
    }
  }

  // ---- Which keys move ----

  predicate Holds(v: Value, key: string) {
    v.Object? && key in v.fields
  }

  ghost predicate CanMove(args: Args, props: Properties, key: string) {
    exists p :: Hoistable(args, props, key, p)
  }

  /** Coerced, the value of `j` at `p` would be a new burial place of the missing `key`. */
  predicate Buries(before: Args, props: Properties, coerce: Coerce, j: string, p: string, key: string)
    requires j in props && BuriedIn(before, props, j, p)
  {
    && key in props && key !in before
    && Holds(coerce(before[p].fields[j], props[j]), key) && !Declares(props, j, key)
  }

  /** No value that can move would become a burial place of a required key that is missing. */
  ghost predicate BuriesNothing(before: Args, props: Properties, required: seq<string>, coerce: Coerce) {
    forall j, p, key :: j in required && Hoistable(before, props, j, p) && key in required ==>
                          !Buries(before, props, coerce, j, p, key)
  }

  /** Every moved key could move at first, and came from its first place. */
  ghost predicate CameFrom(before: Args, t: Trace, props: Properties, coerce: Coerce) {
    forall x :: x in t.from ==> CameRightly(before, t, props, coerce, x)
  }

  ghost predicate CameRightly(before: Args, t: Trace, props: Properties, coerce: Coerce, x: string)
    requires x in t.from
  {
    && Hoistable(before, props, x, t.from[x])
    && x in t.origin && t.origin[x] == coerce(before[t.from[x]].fields[x], props[x])
  }

  /** Until `key` moves it lies in the places where it lay at first. */
  lemma SamePlace(before: Args, t: Trace, props: Properties, required: seq<string>, coerce: Coerce,
                  key: string, q: string)
    requires Conserved(before, t, props, required, coerce) && CameFrom(before, t, props, coerce)
    requires BuriesNothing(before, props, required, coerce) && key in required && key !in t.from
    requires key in props && key !in before
    ensures BuriedIn(t.args, props, key, q) <==> BuriedIn(before, props, key, q)
  {
    if q in t.args {
      assert t.args[q] == Without(t.origin[q], MovedFrom(t, q));
      if q in t.from {
        assert CameRightly(before, t, props, coerce, q);
        assert q in required;
        assert !Buries(before, props, coerce, q, t.from[q], key);
      }
    }
  }

  lemma SamePlaces(before: Args, t: Trace, props: Properties, required: seq<string>, coerce: Coerce, key: string)
    requires Conserved(before, t, props, required, coerce) && CameFrom(before, t, props, coerce)
    requires BuriesNothing(before, props, required, coerce) && key in required && key !in t.from
    ensures forall p :: Hoistable(t.args, props, key, p) <==> Hoistable(before, props, key, p)
  {
    if key in props && key !in before {
      forall p ensures Hoistable(t.args, props, key, p) <==> Hoistable(before, props, key, p) {
        forall q ensures BuriedIn(t.args, props, key, q) <==> BuriedIn(before, props, key, q) {
          SamePlace(before, t, props, required, coerce, key, q);
        }
      }
    }
  }

  lemma MovesInTurn(t: Trace, props: Properties, r: string, coerce: Coerce, key: string)
    ensures key in Hoist(t, props, r, coerce).from <==> key in t.from || (r == key && CanMove(t.args, props, key))
  {
  }

  /** One more move comes from its first place as well. */
  lemma CameFromStep(before: Args, t: Trace, props: Properties, required: seq<string>, coerce: Coerce, key: string)
    requires Conserved(before, t, props, required, coerce) && CameFrom(before, t, props, coerce)
    requires BuriesNothing(before, props, required, coerce) && key in required
    ensures CameFrom(before, Hoist(t, props, key, coerce), props, coerce)
  {
    if p :| Hoistable(t.args, props, key, p) {
      HoistIsMove(t, props, key, p, coerce);
      var u := Moved(t, props, key, p, coerce);
      SamePlaces(before, t, props, required, coerce, key);
      assert t.args[p] == Without(t.origin[p], MovedFrom(t, p));
      forall x | x in u.from ensures CameRightly(before, u, props, coerce, x) {
        if x != key {
          assert CameRightly(before, t, props, coerce, x);
        }
      }
    }
  }

  lemma {:induction false} CameFromUpTo(before: Args, props: Properties, required: seq<string>, n: nat, coerce: Coerce)
    requires n <= |required| && BuriesNothing(before, props, required, coerce)
    ensures CameFrom(before, HoistAll(Unmoved(before), props, required[..n], coerce), props, coerce)
  {
    if n > 0 {
      var done := required[..n - 1];
      assert required[..n][..n - 1] == done;
      CameFromUpTo(before, props, required, n - 1, coerce);
      HoistingConserves(before, props, required, n - 1, coerce);
      CameFromStep(before, HoistAll(Unmoved(before), props, done, coerce), props, required, coerce, required[n - 1]);
    }
  }

  lemma MovedNext(before: Args, t: Trace, props: Properties, required: seq<string>, coerce: Coerce, r: string,
                  key: string)
    requires Conserved(before, t, props, required, coerce) && CameFrom(before, t, props, coerce)
    requires BuriesNothing(before, props, required, coerce) && r in required
    requires key in t.from ==> CanMove(before, props, key)
    ensures key in Hoist(t, props, r, coerce).from <==> key in t.from || (r == key && CanMove(before, props, key))
  {
    MovesInTurn(t, props, r, coerce, key);
    if r == key && key !in t.from {
      SamePlaces(before, t, props, required, coerce, key);
    }
  }

  lemma {:induction false} MovedUpTo(before: Args, props: Properties, required: seq<string>, n: nat, coerce: Coerce,
                                     key: string)
    requires n <= |required| && BuriesNothing(before, props, required, coerce)
    ensures key in HoistAll(Unmoved(before), props, required[..n], coerce).from <==>
            key in required[..n] && CanMove(before, props, key)
  {
    if n > 0 {
      var done, r := required[..n - 1], required[n - 1];
      var t := HoistAll(Unmoved(before), props, done, coerce);
      assert required[..n] == done + [r];
      assert key in done + [r] <==> key in done || key == r;
      MovedUpTo(before, props, required, n - 1, coerce, key);
      HoistingConserves(before, props, required, n - 1, coerce);
      CameFromUpTo(before, props, required, n - 1, coerce);
      MovedNext(before, t, props, required, coerce, r, key);
      HoistSnoc(Unmoved(before), props, done, r, coerce);
    }
  }

  /** Over a whole run a key moves if and only if it is required, missing, declared and buried in
      exactly one undeclared place of the arguments first given, and it moves from that place,
      provided that no value that can move would itself bury a required key that is missing. */
  lemma MovedExactlyWhen(before: Args, props: Properties, required: seq<string>, coerce: Coerce, key: string)
    requires BuriesNothing(before, props, required, coerce)
    ensures var t := HoistAll(Unmoved(before), props, required, coerce);
            && (key in t.from <==> key in required && exists p :: Hoistable(before, props, key, p))
            && (key in t.from ==> Hoistable(before, props, key, t.from[key]))
  {
    assert required[..|required|] == required;
    MovedUpTo(before, props, required, |required|, coerce, key);
    CameFromUpTo(before, props, required, |required|, coerce);
  }

  // ---- What a nested schema decides ----

  /** A field that the schema of its object declares stays where it is. */
  lemma DeclaredStays(before: Args, props: Properties, required: seq<string>, coerce: Coerce, p: string, key: string)
    requires p in before && p in props && props[p].nested.Some? && key in props[p].nested.value
    requires before[p].Object? && key in before[p].fields
    ensures var args := HoistAll(Unmoved(before), props, required, coerce).args;
            p in args && args[p].Object? && key in args[p].fields && args[p].fields[key] == before[p].fields[key]
  {
    assert required[..|required|] == required;
    HoistingConserves(before, props, required, |required|, coerce);
    var t := HoistAll(Unmoved(before), props, required, coerce);
    assert t.args[p] == Without(t.origin[p], MovedFrom(t, p));
    if key in t.from {
      assert MovedRightly(before, t, props, key, coerce);
    }
  }

  /** A required field moves when it is missing at the top, declared there, and lies in one object
      only, which declares no fields or not this one. */
  lemma UndeclaredMoves(before: Args, props: Properties, required: seq<string>, coerce: Coerce, p: string, key: string)
    requires BuriesNothing(before, props, required, coerce)
    requires key in required && key in props && key !in before
    requires p in before && Holds(before[p], key) && forall q :: q in before && Holds(before[q], key) ==> q == p
    requires p in props && props[p].nested.Some? ==> key !in props[p].nested.value
    ensures var t := HoistAll(Unmoved(before), props, required, coerce);
            key in t.args && key in t.from && t.from[key] == p
  {
    assert Hoistable(before, props, key, p);
    MovedExactlyWhen(before, props, required, coerce, key);
    assert required[..|required|] == required;
    HoistingConserves(before, props, required, |required|, coerce);
  }

  /** A value that moves can bury: with no coercion at all "k", missing and buried nowhere at
      first, moves out of "j" once "j" has moved. */
  lemma MovedValueCanBury(coerce: Coerce)
    requires forall v, p :: coerce(v, p) == v
    ensures var before: Args := map["a" := Object(map["j" := Object(map["k" := Other(1)])])];
            var p := Property(0, None);
            var props, required := map["j" := p, "k" := p], ["j", "k"];
            && "k" in HoistAll(Unmoved(before), props, required, coerce).from
            && forall q :: !Hoistable(before, props, "k", q)
  {
    var inner := Object(map["k" := Other(1)]);
    var before: Args, p := map["a" := Object(map["j" := inner])], Property(0, None);
    var props, first := map["j" := p, "k" := p], Unmoved(before);
    assert "j"[0] != "a"[0] && "k"[0] != "a"[0] && "k"[0] != "j"[0];
    assert Hoistable(before, props, "j", "a");
    HoistIsMove(first, props, "j", "a", coerce);
    var t := Moved(first, props, "j", "a", coerce);
    assert t.args["j"] == inner && t.args["a"] == Object(map[]);
    assert ["j"][..0] == [] && HoistAll(first, props, ["j"], coerce) == t;
    assert Hoistable(t.args, props, "k", "j");
    HoistIsMove(t, props, "k", "j", coerce);
    assert ["j", "k"][..1] == ["j"];
  }
}
