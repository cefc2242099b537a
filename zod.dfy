/** The part of the zod library's parsing behaviour that the schemas of this
    repository rely on, as one interpreter over schema values.

    Every schema in the repository is built from a handful of zod combinators
    (`z.object`, `z.array`, `z.record`, `z.union`, `z.enum`, `z.string`,
    `z.number`, `z.boolean`, `z.any`, `.nullable()`, `.optional()`,
    `.optional().default(v)`, and the refinements `.int()`, `.positive()`,
    `.min(n)`, `.max(n)`, `.uuid()`, `.datetime()`, `.email()`, `.url()`).
    `Schema` has one constructor per combinator, and `Parse` is what
    `schema.safeParse(doc)` returns: the normalised value, or `Invalid`.
    Issue messages and paths are not modelled, only the verdict and the value. */
module Zod {
  import opened Json

  datatype Result<+T> = Ok(value: T) | Invalid

  /** The string formats zod checks with its own regular expressions. */
  datatype StringFormat = Uuid | DateTime | Email | Url

  /** Whether a string has a given format. Zod's format checks are library
      code outside this model, so every parse takes them as a parameter. */
  type FormatCheck = (StringFormat, string) -> bool

  datatype StrCheck = MaxLen(limit: nat) | Format(format: StringFormat)

  datatype NumCheck = IsInt | Positive | Min(low: real) | Max(high: real)

  /** How an object key may be missing: `z.x()` is required, `z.x().optional()`
      may be absent, `z.x().optional().default(v)` reads as `v` when absent. */
  datatype Presence = Required | Optional | Default(fallback: Json)

  datatype Field = Field(schema: Schema, presence: Presence)

  datatype Schema =
    | SString(strChecks: seq<StrCheck>)
    | SNumber(numChecks: seq<NumCheck>)
    | SBool
    | SEnum(options: seq<string>)
    | SAny
    | SNullable(inner: Schema)
    | SArray(elem: Schema)
    | SRecord(entry: Schema)
    | SObject(shape: map<string, Field>)
    | SUnion(alts: seq<Schema>)

  predicate StrCheckHolds(c: StrCheck, x: string, fmt: FormatCheck)
  {
    match c
    case MaxLen(n) => |x| <= n
    case Format(f) => fmt(f, x)
  }

  predicate NumCheckHolds(c: NumCheck, x: real)
  {
    match c
    case IsInt => x == x.Floor as real
    case Positive => 0.0 < x
    case Min(lo) => lo <= x
    case Max(hi) => x <= hi
  }

  /** The value an object field's schema is applied to: the document's own
      value, else the declared default, else nothing. */
  function Supplied(f: Field, key: string, m: map<string, Json>): Option<Json>
  {
    if key in m then Some(m[key])
    else if f.presence.Default? then Some(f.presence.fallback)
    else None
  }

  /** `schema.safeParse(j)`: `Ok` with the normalised value (unknown object
      keys dropped, defaults filled in) or `Invalid`. The result always has
      the runtime type of the input. */
  function Parse(s: Schema, j: Json, fmt: FormatCheck): (r: Result<Json>)
    ensures r.Ok? ==> KindOf(r.value) == KindOf(j)
    decreases s, 2, 0
  {
    match s
    case SString(cs) =>
      if j.JStr? && forall i | 0 <= i < |cs| :: StrCheckHolds(cs[i], j.s, fmt) then Ok(j) else Invalid
    case SNumber(cs) =>
      if j.JNum? && forall i | 0 <= i < |cs| :: NumCheckHolds(cs[i], j.n) then Ok(j) else Invalid
    case SBool => if j.JBool? then Ok(j) else Invalid
    case SEnum(opts) => if j.JStr? && j.s in opts then Ok(j) else Invalid
    case SAny => Ok(j)
    case SNullable(inner) => if j.JNull? then Ok(j) else Parse(inner, j, fmt)
    case SArray(e) =>
      if j.JArr? && forall i | 0 <= i < |j.items| :: Parse(e, j.items[i], fmt).Ok? then
        Ok(JArr(seq(|j.items|, i requires 0 <= i < |j.items| => Parse(e, j.items[i], fmt).value)))
      else Invalid
    case SRecord(e) =>
      if j.JObj? && forall k | k in j.props :: Parse(e, j.props[k], fmt).Ok? then
        Ok(JObj(map k | k in j.props :: Parse(e, j.props[k], fmt).value))
      else Invalid
    case SObject(shape) =>
      if j.JObj? && forall k | k in shape :: ParseField(s, k, j.props, fmt).Ok? then
        Ok(JObj(map k | k in shape && ParseField(s, k, j.props, fmt).value.Some?
                  :: ParseField(s, k, j.props, fmt).value.value))
      else Invalid
    case SUnion(_) => ParseUnion(s, 0, j, fmt)
  }

  /** One declared key of an object: `Ok(None)` when it is absent and may be,
      `Ok(Some(v))` when it parses (or defaults) to `v`. */
  function ParseField(s: Schema, key: string, m: map<string, Json>, fmt: FormatCheck): Result<Option<Json>>
    requires s.SObject? && key in s.shape
    decreases s, 1, 0
  {
    var f := s.shape[key];
    match Supplied(f, key, m)
    case None => if f.presence.Required? then Invalid else Ok(None)
    case Some(x) =>
      var r := Parse(f.schema, x, fmt);
      if r.Ok? then Ok(Some(r.value)) else Invalid
  }

  /** `z.union`: the alternatives are tried in order from `i` and the first
      one that accepts the value decides the result. */
  function ParseUnion(s: Schema, i: nat, j: Json, fmt: FormatCheck): (r: Result<Json>)
    requires s.SUnion? && i <= |s.alts|
    ensures r.Ok? ==> KindOf(r.value) == KindOf(j)
    decreases s, 1, |s.alts| - i
  {
    if i == |s.alts| then Invalid
    else
      var r := Parse(s.alts[i], j, fmt);
      if r.Ok? then r else ParseUnion(s, i + 1, j, fmt)
  }

  /** The runtime types a schema can accept at all. */
  predicate Accepts(s: Schema, k: Kind)
  {
    match s
    case SString(_) => k == StrKind
    case SNumber(_) => k == NumKind
    case SBool => k == BoolKind
    case SEnum(_) => k == StrKind
    case SAny => true
    case SNullable(inner) => k == NullKind || Accepts(inner, k)
    case SArray(_) => k == ArrKind
    case SRecord(_) => k == ObjKind
    case SObject(_) => k == ObjKind
    case SUnion(alts) => exists i | 0 <= i < |alts| :: Accepts(alts[i], k)
  }

  /** An earlier union alternative `a` can never accept what a later one `b`
      produced: either they accept disjoint runtime types, or both are
      objects and `a` requires a key that `b` does not declare (and so strips). */
  predicate Separated(a: Schema, b: Schema)
  {
    || (forall k :: !(Accepts(a, k) && Accepts(b, k)))
    || (a.SObject? && b.SObject? &&
        exists n | n in a.shape :: a.shape[n].presence.Required? && n !in b.shape)
  }

  /** Every union inside the schema has pairwise separated alternatives. */
  predicate WellFormed(s: Schema)
  {
    match s
    case SNullable(inner) => WellFormed(inner)
    case SArray(e) => WellFormed(e)
    case SRecord(e) => WellFormed(e)
    case SObject(shape) =>
      // Instantiated only for keys a proof asks about, so that a known
      // well-formed schema is not unfolded key by key.
      forall k {:trigger WellFormed(shape[k].schema)} | k in shape :: WellFormed(shape[k].schema)
    case SUnion(alts) =>
      && (forall i | 0 <= i < |alts| :: WellFormed(alts[i]))
      && (forall a, b | 0 <= a < b < |alts| :: Separated(alts[a], alts[b]))
    case _ => true
  }

  /** The schema contains no object, so parsing can only accept or reject. */
  predicate Transparent(s: Schema)
  {
    match s
    case SNullable(inner) => Transparent(inner)
    case SArray(e) => Transparent(e)
    case SRecord(e) => Transparent(e)
    case SObject(_) => false
    case SUnion(alts) => forall i | 0 <= i < |alts| :: Transparent(alts[i])
    case _ => true
  }

  // ---------------------------------------------------------------------------
  // Lemmas about the interpreter
  // ---------------------------------------------------------------------------

  /** The alternative a successful union parse was decided by. */
  lemma {:induction false} UnionChoice(s: Schema, i: nat, j: Json, fmt: FormatCheck) returns (k: nat)
    requires s.SUnion? && i <= |s.alts|
    requires ParseUnion(s, i, j, fmt).Ok?
    ensures i <= k < |s.alts|
    ensures Parse(s.alts[k], j, fmt) == ParseUnion(s, i, j, fmt)
    ensures forall p | i <= p < k :: Parse(s.alts[p], j, fmt).Invalid?
    decreases |s.alts| - i
  {
    if Parse(s.alts[i], j, fmt).Ok? {
      k := i;
    } else {
      k := UnionChoice(s, i + 1, j, fmt);
    }
  }

  /** Every nullable schema accepts `null` and returns it. */
  lemma NullAccepted(e: Schema, fmt: FormatCheck)
    ensures Parse(SNullable(e), JNull, fmt) == Ok(JNull)
  {
  }

  /** Every array schema accepts the empty array and returns it. */
  lemma EmptyArrayAccepted(e: Schema, fmt: FormatCheck)
    ensures Parse(SArray(e), JArr([]), fmt) == Ok(JArr([]))
  {
    var out := Parse(SArray(e), JArr([]), fmt);
    assert out.Ok? && |out.value.items| == 0;
  }

  /** A one-element array is accepted exactly when its element is. */
  lemma SingletonArrayAccepted(e: Schema, x: Json, fmt: FormatCheck)
    ensures Parse(SArray(e), JArr([x]), fmt).Ok? <==> Parse(e, x, fmt).Ok?
    ensures Parse(e, x, fmt).Ok? ==> Parse(SArray(e), JArr([x]), fmt) == Ok(JArr([Parse(e, x, fmt).value]))
  {
    var a := JArr([x]);
    assert a.items[0] == x;
    if Parse(e, x, fmt).Ok? {
      var out := Parse(SArray(e), a, fmt);
      var v := Parse(e, x, fmt).value;
      assert out.Ok? && |out.value.items| == 1 && out.value.items[0] == v;
      assert out.value.items == [v];
    }
  }

  /** `z.array(z.string())` accepts exactly the arrays of strings. */
  lemma StringArrayAccepted(x: Json, fmt: FormatCheck)
    ensures Parse(SArray(SString([])), x, fmt).Ok? <==> StrArray(x)
  {
    if x.JArr? {
      assert forall i | 0 <= i < |x.items| :: (Parse(SString([]), x.items[i], fmt).Ok? <==> x.items[i].JStr?);
    }
  }

  /** A union returns the first alternative that accepts the value. */
  lemma {:induction false} FirstAccepted(s: Schema, i: nat, k: nat, j: Json, fmt: FormatCheck)
    requires s.SUnion? && i <= k < |s.alts|
    requires Parse(s.alts[k], j, fmt).Ok?
    requires forall p | i <= p < k :: Parse(s.alts[p], j, fmt).Invalid?
    ensures ParseUnion(s, i, j, fmt) == Parse(s.alts[k], j, fmt)
    decreases k - i
  {
    if i < k {
      FirstAccepted(s, i + 1, k, j, fmt);
    }
  }

  /** A schema only ever accepts the runtime types `Accepts` lists. */
  lemma {:induction false} ParseAccepts(s: Schema, j: Json, fmt: FormatCheck)
    requires Parse(s, j, fmt).Ok?
    ensures Accepts(s, KindOf(j))
  {
    match s
    case SNullable(inner) =>
      if !j.JNull? { ParseAccepts(inner, j, fmt); }
    case SUnion(alts) =>
      var k := UnionChoice(s, 0, j, fmt);
      ParseAccepts(alts[k], j, fmt);
    case _ =>
  }

  /** An object's output holds only declared keys. */
  lemma ObjectOutputKeys(s: Schema, j: Json, fmt: FormatCheck)
    requires s.SObject? && Parse(s, j, fmt).Ok?
    ensures Parse(s, j, fmt).value.JObj?
    ensures Parse(s, j, fmt).value.props.Keys <= s.shape.Keys
  {
  }

  /** Separated alternatives never overlap on a value the later one produced. */
  lemma SeparatedRejects(a: Schema, b: Schema, j: Json, fmt: FormatCheck)
    requires Separated(a, b)
    requires Parse(b, j, fmt).Ok?
    ensures Parse(a, Parse(b, j, fmt).value, fmt).Invalid?
  {
    var r := Parse(b, j, fmt).value;
    if a.SObject? && b.SObject? && exists n | n in a.shape :: a.shape[n].presence.Required? && n !in b.shape {
      var n :| n in a.shape && a.shape[n].presence.Required? && n !in b.shape;
      ObjectOutputKeys(b, j, fmt);
      assert ParseField(a, n, r.props, fmt).Invalid?;
    } else if Parse(a, r, fmt).Ok? {
      ParseAccepts(a, r, fmt);
      ParseAccepts(b, j, fmt);
      assert false;
    }
  }

  /** Re-parsing one field of an object's own output gives the same field. */
  lemma {:induction false} FieldIdempotent(s: Schema, key: string, m: map<string, Json>, fmt: FormatCheck)
    requires s.SObject? && key in s.shape && WellFormed(s)
    requires Parse(s, JObj(m), fmt).Ok?
    ensures ParseField(s, key, Parse(s, JObj(m), fmt).value.props, fmt) == ParseField(s, key, m, fmt)
    decreases s, 1, 0
  {
    var f := s.shape[key];
    assert ParseField(s, key, m, fmt).Ok?;
    match Supplied(f, key, m)
    case None =>
    case Some(x) =>
      ParseIdempotent(f.schema, x, fmt);
  }

  /** Re-parsing from alternative `i` finds the alternative that produced the value. */
  lemma {:induction false} UnionIdempotent(s: Schema, i: nat, j: Json, fmt: FormatCheck)
    requires s.SUnion? && i <= |s.alts| && WellFormed(s)
    requires ParseUnion(s, i, j, fmt).Ok?
    ensures ParseUnion(s, i, ParseUnion(s, i, j, fmt).value, fmt) == ParseUnion(s, i, j, fmt)
    decreases s, 1, |s.alts| - i
  {
    var r := ParseUnion(s, i, j, fmt).value;
    if Parse(s.alts[i], j, fmt).Ok? {
      ParseIdempotent(s.alts[i], j, fmt);
    } else {
      UnionIdempotent(s, i + 1, j, fmt);
      var k := UnionChoice(s, i + 1, j, fmt);
      SeparatedRejects(s.alts[i], s.alts[k], j, fmt);
    }
  }

  /** Normalisation is idempotent: a parse result parses to itself. So a
      normalised document is accepted again and nothing more is filled in. */
  lemma {:induction false} ParseIdempotent(s: Schema, j: Json, fmt: FormatCheck)
    requires WellFormed(s)
    requires Parse(s, j, fmt).Ok?
    ensures Parse(s, Parse(s, j, fmt).value, fmt) == Parse(s, j, fmt)
    decreases s, 2, 0
  {
    var r := Parse(s, j, fmt).value;
    match s
    case SNullable(inner) =>
      if !j.JNull? { ParseIdempotent(inner, j, fmt); }
    case SArray(e) =>
      forall i | 0 <= i < |j.items|
        ensures Parse(e, r.items[i], fmt) == Ok(r.items[i])
      {
        ParseIdempotent(e, j.items[i], fmt);
      }
      assert Parse(s, r, fmt).value.items == r.items;
    case SRecord(e) =>
      forall k | k in j.props
        ensures Parse(e, r.props[k], fmt) == Ok(r.props[k])
      {
        ParseIdempotent(e, j.props[k], fmt);
      }
      assert Parse(s, r, fmt).value.props == r.props;
    case SObject(shape) =>
      forall k | k in shape
        ensures ParseField(s, k, r.props, fmt) == ParseField(s, k, j.props, fmt)
      {
        FieldIdempotent(s, k, j.props, fmt);
      }
      assert Parse(s, r, fmt).value.props == r.props;
    case SUnion(_) =>
      UnionIdempotent(s, 0, j, fmt);
    case _ =>
  }

  /** A normalised document is accepted: parsing never produces something
      the same schema would reject. */
  lemma NormalisedIsValid(s: Schema, j: Json, fmt: FormatCheck)
    requires WellFormed(s)
    requires Parse(s, j, fmt).Ok?
    ensures Parse(s, Parse(s, j, fmt).value, fmt).Ok?
  {
    ParseIdempotent(s, j, fmt);
  }

  /** Every declared field of an object has a well-formed schema. */
  predicate FieldsWellFormed(shape: map<string, Field>)
  {
    forall k | k in shape :: WellFormed(shape[k].schema)
  }

  /** Declaring one more well-formed field keeps the fields well formed; this
      lets a large object be checked one key at a time. */
  lemma FieldsAdd(shape: map<string, Field>, key: string, f: Field)
    requires FieldsWellFormed(shape) && WellFormed(f.schema)
    ensures FieldsWellFormed(shape[key := f])
  {
  }

  /** An object is well formed once each of its declared fields is. */
  lemma ObjectWellFormed(s: Schema)
    requires s.SObject? && FieldsWellFormed(s.shape)
    ensures WellFormed(s)
  {
  }

  /** Two objects are separated when the first requires a key the second
      does not declare. */
  lemma RequiredKeySeparates(a: Schema, b: Schema, n: string)
    requires a.SObject? && b.SObject?
    requires n in a.shape && a.shape[n].presence.Required? && n !in b.shape
    ensures Separated(a, b)
  {
  }

  /** A union is well formed once its alternatives are, and are pairwise separated. */
  lemma UnionWellFormed(s: Schema)
    requires s.SUnion?
    requires forall i | 0 <= i < |s.alts| :: WellFormed(s.alts[i])
    requires forall a, b | 0 <= a < b < |s.alts| :: Separated(s.alts[a], s.alts[b])
    ensures WellFormed(s)
  {
  }

  /** A schema without objects returns exactly the value it accepted. */
  lemma {:induction false} TransparentKeeps(s: Schema, j: Json, fmt: FormatCheck)
    requires Transparent(s)
    requires Parse(s, j, fmt).Ok?
    ensures Parse(s, j, fmt).value == j
    decreases s, 2, 0
  {
    match s
    case SNullable(inner) =>
      if !j.JNull? { TransparentKeeps(inner, j, fmt); }
    case SArray(e) =>
      forall i | 0 <= i < |j.items| ensures Parse(e, j.items[i], fmt).value == j.items[i] {
        TransparentKeeps(e, j.items[i], fmt);
      }
      assert Parse(s, j, fmt).value.items == j.items;
    case SRecord(e) =>
      forall k | k in j.props ensures Parse(e, j.props[k], fmt).value == j.props[k] {
        TransparentKeeps(e, j.props[k], fmt);
      }
      assert Parse(s, j, fmt).value.props == j.props;
    case SUnion(alts) =>
      var k := UnionChoice(s, 0, j, fmt);
      TransparentKeeps(alts[k], j, fmt);
    case _ =>
  }

  // ---------------------------------------------------------------------------
  // What the refinements accept
  // ---------------------------------------------------------------------------

  /** `z.string().uuid()` and the other format checks. */
  lemma FormatAccepted(f: StringFormat, x: Json, fmt: FormatCheck)
    ensures Parse(SString([Format(f)]), x, fmt).Ok? <==> x.JStr? && fmt(f, x.s)
  {
    var cs := [Format(f)];
    if x.JStr? {
      assert forall i | 0 <= i < |cs| :: cs[i] == Format(f);
      assert StrCheckHolds(cs[0], x.s, fmt) <==> fmt(f, x.s);
    }
  }

  /** `z.string().max(n)`: at most `n` characters. */
  lemma MaxLenAccepted(n: nat, x: Json, fmt: FormatCheck)
    ensures Parse(SString([MaxLen(n)]), x, fmt).Ok? <==> x.JStr? && |x.s| <= n
  {
    var cs := [MaxLen(n)];
    if x.JStr? {
      assert forall i | 0 <= i < |cs| :: cs[i] == MaxLen(n);
      assert StrCheckHolds(cs[0], x.s, fmt) <==> |x.s| <= n;
    }
  }

  /** `z.number().int().positive()`: an integer no smaller than 1. */
  lemma PositiveIntAccepted(x: Json, fmt: FormatCheck)
    ensures Parse(SNumber([IsInt, Positive]), x, fmt).Ok? <==> IntAtLeast(x, 1)
  {
    if x.JNum? {
      var cs := [IsInt, Positive];
      assert forall i | 0 <= i < |cs| :: cs[i] == IsInt || cs[i] == Positive;
      assert NumCheckHolds(cs[0], x.n) && NumCheckHolds(cs[1], x.n) <==> IntAtLeast(x, 1);
    }
  }

  /** `z.number().int().min(0)`: an integer no smaller than 0. */
  lemma NonNegativeIntAccepted(x: Json, fmt: FormatCheck)
    ensures Parse(SNumber([IsInt, Min(0.0)]), x, fmt).Ok? <==> IntAtLeast(x, 0)
  {
    if x.JNum? {
      var cs := [IsInt, Min(0.0)];
      assert forall i | 0 <= i < |cs| :: cs[i] == IsInt || cs[i] == Min(0.0);
      assert NumCheckHolds(cs[0], x.n) && NumCheckHolds(cs[1], x.n) <==> IntAtLeast(x, 0);
    }
  }

  /** `z.number().min(0).max(1)`: a number in [0, 1]. */
  lemma UnitAccepted(x: Json, fmt: FormatCheck)
    ensures Parse(SNumber([Min(0.0), Max(1.0)]), x, fmt).Ok? <==> UnitInterval(x)
  {
    if x.JNum? {
      var cs := [Min(0.0), Max(1.0)];
      assert forall i | 0 <= i < |cs| :: cs[i] == Min(0.0) || cs[i] == Max(1.0);
      assert NumCheckHolds(cs[0], x.n) && NumCheckHolds(cs[1], x.n) <==> UnitInterval(x);
    }
  }

  // ---------------------------------------------------------------------------
  // Vocabulary for what an object's output holds under one key
  // ---------------------------------------------------------------------------

  /** The output has `key` exactly when the input had it, with the same value. */
  predicate Kept(out: map<string, Json>, input: map<string, Json>, key: string)
  {
    && (key in out <==> key in input)
    && (key in input ==> out[key] == input[key])
  }

  /** The output has `key`: the input's value if it had one, else `fallback`. */
  predicate FilledIn(out: map<string, Json>, input: map<string, Json>, key: string, fallback: Json)
  {
    key in out && out[key] == (if key in input then input[key] else fallback)
  }

  // ---------------------------------------------------------------------------
  // Reading one key of a parsed object
  // ---------------------------------------------------------------------------

  /** What an accepted object's output holds under one declared key. */
  lemma ParsedField(s: Schema, j: Json, key: string, fmt: FormatCheck)
    requires s.SObject? && key in s.shape
    requires Parse(s, j, fmt).Ok?
    ensures j.JObj? && ParseField(s, key, j.props, fmt).Ok?
    ensures var out := Parse(s, j, fmt).value.props;
      && (key in out <==> Supplied(s.shape[key], key, j.props).Some?)
      && (key in out ==> Parse(s.shape[key].schema, Supplied(s.shape[key], key, j.props).value, fmt) == Ok(out[key]))
  {
  }

  /** An object that declares exactly the schema's keys, each holding a value
      its schema returns unchanged, is returned unchanged. */
  lemma ObjectReturnsItself(s: Schema, j: Json, fmt: FormatCheck)
    requires s.SObject? && j.JObj?
    requires forall k | k in j.props :: k in s.shape
    requires forall k | k in s.shape :: k in j.props && Parse(s.shape[k].schema, j.props[k], fmt) == Ok(j.props[k])
    ensures Parse(s, j, fmt) == Ok(j)
  {
    assert forall k | k in s.shape :: ParseField(s, k, j.props, fmt) == Ok(Some(j.props[k]));
    assert Parse(s, j, fmt).value.props == j.props;
  }

  /** `props` declares exactly the keys of `shape`, each holding a value its
      field's schema returns unchanged. */
  predicate FieldsReturnThemselves(shape: map<string, Field>, props: map<string, Json>, fmt: FormatCheck)
  {
    && (forall k | k in props :: k in shape)
    && (forall k | k in shape :: k in props && Parse(shape[k].schema, props[k], fmt) == Ok(props[k]))
  }

  /** An object whose keys are exactly the declared ones, each returned
      unchanged by its field, is returned unchanged. */
  lemma ObjectFieldsReturnThemselves(s: Schema, j: Json, fmt: FormatCheck)
    requires s.SObject? && j.JObj? && FieldsReturnThemselves(s.shape, j.props, fmt)
    ensures Parse(s, j, fmt) == Ok(j)
  {
    ObjectReturnsItself(s, j, fmt);
  }

  /** Declaring one more key, with a value its schema returns unchanged, keeps
      `FieldsReturnThemselves`; this lets a large record be checked one key at
      a time. */
  lemma FieldsReturnThemselvesAdd(shape: map<string, Field>, props: map<string, Json>, key: string, f: Field, v: Json, fmt: FormatCheck)
    requires FieldsReturnThemselves(shape, props, fmt)
    requires Parse(f.schema, v, fmt) == Ok(v)
    ensures FieldsReturnThemselves(shape[key := f], props[key := v], fmt)
  {
  }

  /** An accepted object stays accepted when one declared key is given
      another value its field accepts: the schema relates no key to another. */
  lemma ObjectAcceptsReplaced(s: Schema, j: Json, key: string, v: Json, fmt: FormatCheck)
    requires s.SObject? && key in s.shape && Parse(s, j, fmt).Ok?
    requires Parse(s.shape[key].schema, v, fmt).Ok?
    ensures j.JObj? && Parse(s, JObj(j.props[key := v]), fmt).Ok?
  {
    var m := j.props[key := v];
    forall k | k in s.shape ensures ParseField(s, k, m, fmt).Ok? {
      assert ParseField(s, k, j.props, fmt).Ok?;
    }
  }

  /** Dropping a declared key from an accepted object keeps it accepted
      exactly when the key is not required (for keys without a default). */
  lemma ObjectWithout(s: Schema, j: Json, key: string, fmt: FormatCheck)
    requires s.SObject? && key in s.shape && !s.shape[key].presence.Default? && Parse(s, j, fmt).Ok?
    ensures j.JObj?
    ensures Parse(s, JObj(j.props - {key}), fmt).Ok? <==> !s.shape[key].presence.Required?
  {
    var m := j.props - {key};
    if s.shape[key].presence.Required? {
      assert ParseField(s, key, m, fmt).Invalid?;
    } else {
      forall k | k in s.shape ensures ParseField(s, k, m, fmt).Ok? {
        assert ParseField(s, k, j.props, fmt).Ok?;
      }
    }
  }

  /** One rejected field rejects the whole object. */
  lemma ObjectRejects(s: Schema, j: Json, key: string, fmt: FormatCheck)
    requires s.SObject? && key in s.shape && j.JObj? && key in j.props
    requires Parse(s.shape[key].schema, j.props[key], fmt).Invalid?
    ensures Parse(s, j, fmt).Invalid?
  {
    assert ParseField(s, key, j.props, fmt).Invalid?;
  }

  /** For a key whose schema holds no object: a required key was present, a
      present value was accepted, and the output keeps the document's value,
      or carries the default when there is one and the document has none. */
  lemma KeptOrDefaulted(s: Schema, j: Json, key: string, fmt: FormatCheck)
    requires s.SObject? && key in s.shape && Transparent(s.shape[key].schema)
    requires Parse(s, j, fmt).Ok?
    ensures j.JObj?
    ensures var f := s.shape[key];
      var out := Parse(s, j, fmt).value.props;
      && (f.presence.Required? ==> key in j.props)
      && (key in j.props ==> Parse(f.schema, j.props[key], fmt).Ok?)
      && (if f.presence.Default? then FilledIn(out, j.props, key, f.presence.fallback)
          else Kept(out, j.props, key))
  {
    ParsedField(s, j, key, fmt);
    var f := s.shape[key];
    var x := Supplied(f, key, j.props);
    if x.Some? {
      TransparentKeeps(f.schema, x.value, fmt);
    }
  }
}
