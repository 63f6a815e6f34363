/** The generator of library calls: every argument slot has a kind, and every
  byte stream fills it with something of that kind.
 */
module ApiCalls {
  import opened Basics
  import opened Bytes

  datatype Kind = Num | Str | Tbl | Fn | Bool | Buf | Vec | Any | VarNum | VarAny | Idx

  /** A covered function and the kinds of its arguments. */
  datatype Api = Api(name: string, kinds: seq<Kind>)

  /** Generated argument expressions.  `Small` is a number written where a count
      or a size is expected. */
  datatype Value =
    | Small(n: int)
    | Number(curated: bool, n: int)
    | Stock(n: int)
    | Text(cs: seq<Chr>)
    | Flag(b: bool)
    | Buffer(shape: int, n: int)
    | Vector(n: int)
    | Nil
    | FlatTable(n: int)
    | Table(fields: seq<Field>, meta: Meta)
    | Function(shape: int, n: int, results: seq<Value>)
    | Local(i: nat)

  /** A character of a text: any printable one, or one of the marks that formats
      and patterns give a meaning to. */
  datatype Chr = Printable(c: int) | Meaningful(i: int)

  datatype Field = Item(v: Value) | Keyed(key: Value, v: Value)

  datatype Meta = NoMeta | Throws | Gives(v: Value)

  const MAX_DEPTH: nat := 4
  const LIMIT := 2000
  const SMALL_POOL := [0, 1, -1, 2, 8, 64, 255, 1000, 2000, -64, -1000]

  /** The kinds a generated value can take; a count is not among them. */
  const VALUE_KINDS := [Num, Str, Bool, Tbl, Fn, Buf, Vec]

  // ----- what the generated values are -----

  /** A value made for a slot of kind `k`. */
  predicate Makes(k: Kind, v: Value)
  {
    match k
    case Num => v.Number?
    case VarNum => v.Number?
    case Idx => v.Small? && -LIMIT <= v.n <= LIMIT
    case Str => v.Text? || v.Stock?
    case Bool => v.Flag?
    case Fn => v.Function?
    case Buf => v.Buffer?
    case Vec => v.Vector?
    case Tbl => v.FlatTable? || v.Table?
    case Any => !v.Small? && !v.Local?
    case VarAny => !v.Small? && !v.Local?
  }

  /** How deep table literals are nested in each other. */
  function Nesting(v: Value): nat
    decreases v, 1
  {
    match v
    case FlatTable(_) => 1
    case Table(fields, meta) =>
      var inMeta := if meta.Gives? then 1 + Nesting(meta.v) else if meta.Throws? then 1 else 0;
      Max(1 + NestingFields(fields), inMeta)
    case Function(_, _, results) => NestingAll(results)
    case _ => 0
  }

  function NestingFields(fs: seq<Field>): nat
    decreases fs, 0
  {
    if fs == [] then 0
    else
      Max(NestingFields(fs[..|fs| - 1]), NestingField(fs[|fs| - 1]))
  }

  function NestingField(f: Field): nat
    decreases f, 0
  {
    match f case Item(v) => Nesting(v) case Keyed(key, v) => Max(Nesting(key), Nesting(v))
  }

  function NestingAll(vs: seq<Value>): nat
    decreases vs, 0
  {
    if vs == [] then 0 else Max(NestingAll(vs[..|vs| - 1]), Nesting(vs[|vs| - 1]))
  }

  lemma NestingPush(fs: seq<Field>, f: Field)
    ensures NestingFields(fs + [f]) == Max(NestingFields(fs), NestingField(f))
  {
    assert (fs + [f])[..|fs|] == fs;
  }

  lemma NestingOne(v: Value)
    ensures NestingAll([v]) == Nesting(v)
  {
    assert [v][..0] == [];
  }

  // ----- the values that can be made -----

  function KindOf(v: Value): Kind
  {
    match v
    case Small(_) => Idx
    case Number(_, _) => Num
    case Stock(_) => Str
    case Text(_) => Str
    case Flag(_) => Bool
    case Buffer(_, _) => Buf
    case Vector(_) => Vec
    case FlatTable(_) => Tbl
    case Table(_, _) => Tbl
    case Function(_, _, _) => Fn
    case _ => Any
  }

  predicate PossibleNumber(v: Value)
  {
    v.Number? && if v.curated then 0 <= v.n <= 19 else -0x8000_0000_0000_0000 <= v.n <= 0x7fff_ffff_ffff_ffff
  }

  predicate PossibleChr(c: Chr)
  {
    match c case Printable(x) => 32 <= x <= 126 case Meaningful(i) => 0 <= i <= 63
  }

  predicate PossibleText(cs: seq<Chr>)
  {
    forall i :: 0 <= i < |cs| ==> PossibleChr(cs[i])
  }

  predicate PossibleKey(v: Value)
  {
    (v.Stock? && 0 <= v.n <= 7) || v.Flag? || (v.Number? && v.curated && 0 <= v.n <= 19)
  }

  predicate PossibleMeta(m: Meta)
  {
    m.Gives? ==> PossibleNumber(m.v)
  }

  function Below(depth: nat): nat
  {
    if depth == 0 then 0 else depth - 1
  }

  function MostOf(shape: int): int
  {
    if shape == 1 then 7 else if shape == 2 then 4 else 2
  }

  /** A value of one of the kinds of values, with `depth` levels of tables to spend. */
  predicate Possible(v: Value, depth: nat)
    decreases v, 0
  {
    match v
    case Number(_, _) => PossibleNumber(v)
    case Stock(i) => 0 <= i <= 7
    case Text(cs) => |cs| <= 24 && PossibleText(cs)
    case Flag(_) => true
    case Buffer(shape, n) => 0 <= shape <= 2 && 0 <= n <= MostOf(shape)
    case Vector(n) => 0 <= n <= 3
    case FlatTable(n) => depth == 0 && 0 <= n <= 2
    case Table(fields, meta) =>
      depth > 0 && |fields| <= 4 && PossibleFields(fields, Below(depth)) && PossibleMeta(meta)
    case Function(shape, n, results) =>
      if shape == 1 then n == 0 && |results| == 1 && Possible(results[0], Below(depth))
      else if shape == 2 then 0 <= n <= 4 && results == []
      else (shape == 0 || shape == 3 || shape == 4) && n == 0 && results == []
    case _ => false
  }

  predicate PossibleField(f: Field, depth: nat)
    decreases f, 0
  {
    match f case Item(v) => Possible(v, depth) case Keyed(key, v) => PossibleKey(key) && Possible(v, depth)
  }

  predicate PossibleFields(fs: seq<Field>, depth: nat)
    decreases fs, 0
  {
    forall i :: 0 <= i < |fs| ==> PossibleField(fs[i], depth)
  }

  /** A value for a slot of kind `k`. */
  predicate PossibleFor(k: Kind, v: Value, depth: nat)
  {
    match k
    case Idx => v.Small? && -LIMIT <= v.n <= LIMIT
    case Any => v.Nil? || Possible(v, depth)
    case VarAny => v.Nil? || Possible(v, depth)
    case VarNum => PossibleNumber(v)
    case _ => KindOf(v) == k && Possible(v, depth)
  }

  // ----- the value that bytes ask for -----

  function Left(data: seq<Byte>, pos: nat): nat
  {
    if pos < |data| then |data| - pos else 0
  }

  function DrawKind(data: seq<Byte>, pos: nat): (r: (Kind, nat))
    ensures r.0 in VALUE_KINDS && pos <= r.1
  {
    var (i, p) := Drawn(data, pos, 0, 6);
    (VALUE_KINDS[i], p)
  }

  function DrawNumber(data: seq<Byte>, pos: nat): (r: (Value, nat))
    ensures PossibleNumber(r.0) && pos <= r.1
  {
    var (c, p) := Drawn(data, pos, 0, 1);
    if c == 0 then var (i, q) := Drawn(data, p, 0, 19); (Number(true, i), q)
    else var (n, q) := Drawn(data, p, -0x8000_0000_0000_0000, 0x7fff_ffff_ffff_ffff); (Number(false, n), q)
  }

  function DrawChr(data: seq<Byte>, pos: nat): (r: (Chr, nat))
    ensures PossibleChr(r.0) && pos <= r.1
  {
    var (d, p) := Drawn(data, pos, 0, 3);
    if d == 0 then var (x, q) := Drawn(data, p, 32, 126); (Printable(x), q)
    else var (i, q) := Drawn(data, p, 0, 63); (Meaningful(i), q)
  }

  function DrawChrs(data: seq<Byte>, pos: nat, n: nat): (r: (seq<Chr>, nat))
    ensures |r.0| == n && PossibleText(r.0) && pos <= r.1
  {
    if n == 0 then ([], pos)
    else
      var (cs, p) := DrawChrs(data, pos, n - 1);
      var (c, q) := DrawChr(data, p);
      (cs + [c], q)
  }

  function DrawString(data: seq<Byte>, pos: nat): (r: (Value, nat))
    ensures KindOf(r.0) == Str && Possible(r.0, 0) && Possible(r.0, 1) && pos <= r.1
  {
    var (c, p) := Drawn(data, pos, 0, 1);
    if c == 0 then var (i, q) := Drawn(data, p, 0, 7); (Stock(i), q)
    else
      var (n, q) := Drawn(data, p, 0, 24);
      var (cs, s) := DrawChrs(data, q, n);
      (Text(cs), s)
  }

  function DrawBuffer(data: seq<Byte>, pos: nat): (r: (Value, nat))
    ensures r.0.Buffer? && 0 <= r.0.shape <= 2 && 0 <= r.0.n <= MostOf(r.0.shape) && pos <= r.1
  {
    var (c, p) := Drawn(data, pos, 0, 2);
    var (i, q) := Drawn(data, p, 0, MostOf(c));
    (Buffer(c, i), q)
  }

  function DrawCount(data: seq<Byte>, pos: nat): (r: (Value, nat))
    ensures r.0.Small? && -LIMIT <= r.0.n <= LIMIT && pos <= r.1
  {
    var (c, p) := Drawn(data, pos, 0, 1);
    if c == 0 then var (i, q) := Drawn(data, p, 0, |SMALL_POOL| - 1); (Small(SMALL_POOL[i]), q)
    else var (n, q) := Drawn(data, p, -LIMIT, LIMIT); (Small(n), q)
  }

  /** Values without parts. */
  function DrawSimple(data: seq<Byte>, pos: nat, k: Kind): (r: (Value, nat))
    requires k !in {Tbl, Fn, Any, VarAny}
    ensures forall depth :: PossibleFor(k, r.0, depth)
    ensures pos <= r.1
  {
    match k
    case Num => DrawNumber(data, pos)
    case VarNum => DrawNumber(data, pos)
    case Idx => DrawCount(data, pos)
    case Str => DrawString(data, pos)
    case Bool => var (i, p) := Drawn(data, pos, 0, 1); (Flag(i == 0), p)
    case Buf => DrawBuffer(data, pos)
    case Vec => var (i, p) := Drawn(data, pos, 0, 3); (Vector(i), p)
  }

  /** The recursion ends because each round has less depth, fewer bytes to read, or
      a simpler kind: at depth 0 a function may still return a function, but only
      after reading a byte. */
  function DrawValue(data: seq<Byte>, pos: nat, k: Kind, depth: nat): (r: (Value, nat))
    ensures PossibleFor(k, r.0, depth) && pos <= r.1
    decreases depth, Left(data, pos), 2, if k == Any || k == VarAny then 2 else 0
  {
    match k
    case Fn => DrawFunction(data, pos, depth)
    case Tbl => DrawTable(data, pos, depth)
    case Any => DrawAny(data, pos, depth)
    case VarAny => DrawAny(data, pos, depth)
    case _ => DrawSimple(data, pos, k)
  }

  function DrawAny(data: seq<Byte>, pos: nat, depth: nat): (r: (Value, nat))
    ensures (r.0.Nil? || Possible(r.0, depth)) && pos <= r.1
    decreases depth, Left(data, pos), 2, 1
  {
    var (c, p) := Drawn(data, pos, 0, 5);
    if c == 0 then (Nil, p)
    else
      var (k, q) := DrawKind(data, p);
      DrawValue(data, q, k, depth)
  }

  function DrawFunction(data: seq<Byte>, pos: nat, depth: nat): (r: (Value, nat))
    ensures r.0.Function? && Possible(r.0, depth) && pos <= r.1
    decreases depth, Left(data, pos), 1, 0
  {
    var (c, p) := Drawn(data, pos, 0, 4);
    if c == 1 then
      var (k, q) := DrawKind(data, p);
      var (v, s) := DrawValue(data, q, k, Below(depth));
      (Function(c, 0, [v]), s)
    else if c == 2 then var (i, q) := Drawn(data, p, 0, 4); (Function(c, i, []), q)
    else (Function(c, 0, []), p)
  }

  function DrawKey(data: seq<Byte>, pos: nat): (r: (Value, nat))
    ensures PossibleKey(r.0) && pos <= r.1
  {
    var (c, p) := Drawn(data, pos, 0, 2);
    if c == 1 then var (i, q) := Drawn(data, p, 0, 7); (Stock(i), q)
    else if c == 2 then var (i, q) := Drawn(data, p, 0, 1); (Flag(i == 0), q)
    else var (i, q) := Drawn(data, p, 0, 19); (Number(true, i), q)
  }

  function DrawTable(data: seq<Byte>, pos: nat, depth: nat): (r: (Value, nat))
    ensures (r.0.FlatTable? || r.0.Table?) && Possible(r.0, depth) && pos <= r.1
    decreases depth, Left(data, pos), 1, 0
  {
    if depth == 0 then var (i, p) := Drawn(data, pos, 0, 2); (FlatTable(i), p)
    else
      var (n, p) := Drawn(data, pos, 0, 4);
      var (fs, q) := DrawFields(data, p, n, depth - 1);
      var (m, s) := DrawMeta(data, q);
      (Table(fs, m), s)
  }

  function DrawFields(data: seq<Byte>, pos: nat, n: nat, depth: nat): (r: (seq<Field>, nat))
    ensures |r.0| == n && PossibleFields(r.0, depth) && pos <= r.1
    decreases depth, Left(data, pos), 4, n
  {
    if n == 0 then ([], pos)
    else
      var (fs, p) := DrawFields(data, pos, n - 1, depth);
      var (f, q) := DrawField(data, p, depth);
      (fs + [f], q)
  }

  function DrawField(data: seq<Byte>, pos: nat, depth: nat): (r: (Field, nat))
    ensures PossibleField(r.0, depth) && pos <= r.1
    decreases depth, Left(data, pos), 3, 0
  {
    var (k, p) := DrawKind(data, pos);
    var (c, q) := Drawn(data, p, 0, 2);
    if c == 0 then
      var (key, s) := DrawKey(data, q);
      var (v, z) := DrawValue(data, s, k, depth);
      (Keyed(key, v), z)
    else
      var (v, z) := DrawValue(data, q, k, depth);
      (Item(v), z)
  }

  function DrawMeta(data: seq<Byte>, pos: nat): (r: (Meta, nat))
    ensures PossibleMeta(r.0) && pos <= r.1
  {
    var (c, p) := Drawn(data, pos, 0, 4);
    if c != 0 then (NoMeta, p)
    else
      var (d, q) := Drawn(data, p, 0, 2);
      if d == 1 then var (v, s) := DrawNumber(data, q); (Gives(v), s)
      else if d == 2 then var (i, s) := Drawn(data, q, 0, 19); (Gives(Number(true, i)), s)
      else (Throws, q)
  }

  // ----- the generator -----

  method PickKind(u: Choices) returns (k: Kind)
    requires u.Valid()
    modifies u
    ensures u.Valid() && k in VALUE_KINDS && old(u.pos) <= u.pos && (k, u.pos) == DrawKind(u.data, old(u.pos))
  {
    hide Drawn;
    var i := u.InRange(0, |VALUE_KINDS| - 1);
    k := VALUE_KINDS[i];
  }

  /** A curated number, or any number at all. */
  method GenNumber(u: Choices) returns (v: Value)
    requires u.Valid()
    modifies u
    ensures u.Valid() && v.Number? && old(u.pos) <= u.pos && (v, u.pos) == DrawNumber(u.data, old(u.pos))
  {
    hide Drawn;
    var c := u.InRange(0, 1);
    if c == 0 {
      var i := u.InRange(0, 19);
      v := Number(true, i);
    } else {
      var n := u.InRange(-0x8000_0000_0000_0000, 0x7fff_ffff_ffff_ffff);
      v := Number(false, n);
    }
  }

  method GenString(u: Choices) returns (v: Value)
    requires u.Valid()
    modifies u
    ensures u.Valid() && Makes(Str, v) && old(u.pos) <= u.pos && (v, u.pos) == DrawString(u.data, old(u.pos))
  {
    hide Drawn, DrawChr, PossibleChr;
    var c := u.InRange(0, 1);
    if c == 0 {
      var i := u.InRange(0, 7);
      return Stock(i);
    }
    var n := u.InRange(0, 24);
    ghost var start := u.pos;
    var cs := [];
    for i := 0 to n
      invariant u.Valid() && old(u.pos) <= u.pos && (cs, u.pos) == DrawChrs(u.data, start, i)
    {
      var x := GenChr(u);
      cs := cs + [x];
    }
    v := Text(cs);
  }

  method GenChr(u: Choices) returns (c: Chr)
    requires u.Valid()
    modifies u
    ensures u.Valid() && old(u.pos) <= u.pos && (c, u.pos) == DrawChr(u.data, old(u.pos))
  {
    hide Drawn;
    var d := u.InRange(0, 3);
    if d == 0 {
      var x := u.InRange(32, 126);
      c := Printable(x);
    } else {
      var x := u.InRange(0, 63);
      c := Meaningful(x);
    }
  }

  /** A value of kind `k`.  The recursion ends because each round has less depth,
      fewer bytes to read, or a simpler kind: at depth 0 a function may still
      return a function, but only after reading a byte. */
  method GenValue(u: Choices, k: Kind, depth: nat) returns (v: Value)
    requires u.Valid()
    modifies u
    ensures u.Valid() && old(u.pos) <= u.pos
    ensures Makes(k, v) && Nesting(v) <= depth + 1 && (v, u.pos) == DrawValue(u.data, old(u.pos), k, depth)
    decreases depth, u.Left(), if k == Any || k == VarAny then 3 else 2
  {
    hide Drawn, DrawNumber, DrawString, DrawFunction, DrawBuffer, DrawTable, DrawAny, Possible, PossibleFor;
    match k
    case Num => v := GenNumber(u);
    case VarNum => v := GenNumber(u);
    case Idx =>
      var c := u.InRange(0, 1);
      if c == 0 {
        var i := u.InRange(0, |SMALL_POOL| - 1);
        v := Small(SMALL_POOL[i]);
      } else {
        var n := u.InRange(-LIMIT, LIMIT);
        v := Small(n);
      }
    case Str => v := GenString(u);
    case Bool =>
      var i := u.InRange(0, 1);
      v := Flag(i == 0);
    case Fn => v := GenFunction(u, depth);
    case Buf => v := GenBuffer(u);
    case Vec =>
      var i := u.InRange(0, 3);
      v := Vector(i);
    case Tbl => v := GenTable(u, depth);
    case Any => v := GenAny(u, depth);
    case VarAny => v := GenAny(u, depth);
  }

  /** A buffer made from a string, or with a small size. */
  method GenBuffer(u: Choices) returns (v: Value)
    requires u.Valid()
    modifies u
    ensures u.Valid() && old(u.pos) <= u.pos && v.Buffer? && (v, u.pos) == DrawBuffer(u.data, old(u.pos))
  {
    hide Drawn;
    var c := u.InRange(0, 2);
    var i := u.InRange(0, if c == 1 then 7 else if c == 2 then 4 else 2);
    v := Buffer(c, i);
  }

  method GenAny(u: Choices, depth: nat) returns (v: Value)
    requires u.Valid()
    modifies u
    ensures u.Valid() && old(u.pos) <= u.pos
    ensures Makes(Any, v) && Nesting(v) <= depth + 1
    ensures (v, u.pos) == DrawAny(u.data, old(u.pos), depth)
    decreases depth, u.Left(), 3, 0
  {
    hide Drawn, DrawKind, Possible, PossibleFor;
    var c := u.InRange(0, 5);
    if c == 0 {
      return Nil;
    }
    var k := PickKind(u);
    v := GenValue(u, k, depth);
  }

  /** A function that fails, compares, passes on, does nothing, or returns a value. */
  method GenFunction(u: Choices, depth: nat) returns (v: Value)
    requires u.Valid()
    modifies u
    ensures u.Valid() && old(u.pos) <= u.pos
    ensures v.Function? && Nesting(v) <= depth + 1 && (v, u.pos) == DrawFunction(u.data, old(u.pos), depth)
    decreases depth, u.Left(), 1
  {
    hide Drawn, DrawKind, DrawValue, Possible, PossibleFor;
    var c := u.InRange(0, 4);
    if c == 1 {
      var k := PickKind(u);
      var r := GenValue(u, k, if depth == 0 then 0 else depth - 1);
      NestingOne(r);
      v := Function(c, 0, [r]);
    } else if c == 2 {
      var i := u.InRange(0, 4);
      v := Function(c, i, []);
    } else {
      v := Function(c, 0, []);
    }
  }

  method GenKey(u: Choices) returns (v: Value)
    requires u.Valid()
    modifies u
    ensures u.Valid() && old(u.pos) <= u.pos && Nesting(v) == 0 && (v, u.pos) == DrawKey(u.data, old(u.pos))
  {
    hide Drawn;
    var c := u.InRange(0, 2);
    if c == 1 {
      var i := u.InRange(0, 7);
      v := Stock(i);
    } else if c == 2 {
      var i := u.InRange(0, 1);
      v := Flag(i == 0);
    } else {
      var i := u.InRange(0, 19);
      v := Number(true, i);
    }
  }

  method GenTable(u: Choices, depth: nat) returns (v: Value)
    requires u.Valid()
    modifies u
    ensures u.Valid() && old(u.pos) <= u.pos
    ensures (v.FlatTable? || v.Table?) && Nesting(v) <= depth + 1 && (v, u.pos) == DrawTable(u.data, old(u.pos), depth)
    decreases depth, u.Left(), 1
  {
    hide Drawn, DrawField, DrawFields, DrawMeta, Possible, PossibleField, PossibleFields;
    if depth == 0 {
      var i := u.InRange(0, 2);
      return FlatTable(i);
    }
    var n := u.InRange(0, 4);
    ghost var start := u.pos;
    var fields := [];
    FieldsDrawn(u.data, start, 0, depth - 1);
    for i := 0 to n
      invariant u.Valid() && old(u.pos) <= u.pos && NestingFields(fields) <= depth
      invariant (fields, u.pos) == DrawFields(u.data, start, i, depth - 1)
    {
      FieldsDrawn(u.data, start, i + 1, depth - 1);
      var f := GenField(u, depth - 1);
      NestingPush(fields, f);
      fields := fields + [f];
    }
    var meta := GenMeta(u);
    v := Table(fields, meta);
  }

  lemma FieldsDrawn(data: seq<Byte>, pos: nat, n: nat, depth: nat)
    ensures n == 0 ==> DrawFields(data, pos, n, depth) == ([], pos)
    ensures n > 0 ==>
      var (fs, p) := DrawFields(data, pos, n - 1, depth);
      var (f, q) := DrawField(data, p, depth);
      DrawFields(data, pos, n, depth) == (fs + [f], q)
  {
    hide DrawField, PossibleField;
  }

  method GenField(u: Choices, depth: nat) returns (f: Field)
    requires u.Valid()
    modifies u
    ensures u.Valid() && old(u.pos) <= u.pos
    ensures NestingField(f) <= depth + 1 && (f, u.pos) == DrawField(u.data, old(u.pos), depth)
    decreases depth, u.Left(), 4
  {
    hide Drawn, DrawKind, DrawKey, DrawValue, Possible, PossibleKey, PossibleFor;
    var k := PickKind(u);
    var c := u.InRange(0, 2);
    if c == 0 {
      var key := GenKey(u);
      var x := GenValue(u, k, depth);
      f := Keyed(key, x);
    } else {
      var x := GenValue(u, k, depth);
      f := Item(x);
    }
  }

  /** A metatable, sometimes: one that fails, or one that gives a number. */
  method GenMeta(u: Choices) returns (m: Meta)
    requires u.Valid()
    modifies u
    ensures u.Valid() && old(u.pos) <= u.pos && (m.Gives? ==> m.v.Number?) && (m, u.pos) == DrawMeta(u.data, old(u.pos))
  {
    hide Drawn, DrawNumber;
    m := NoMeta;
    var c := u.InRange(0, 4);
    if c == 0 {
      var d := u.InRange(0, 2);
      if d == 1 {
        var v := GenNumber(u);
        m := Gives(v);
      } else if d == 2 {
        var i := u.InRange(0, 19);
        m := Gives(Number(true, i));
      } else {
        m := Throws;
      }
    }
  }

  // ----- calls -----

  /** Whether a local of kind `have` may fill a slot of kind `want`. */
  predicate Compatible(want: Kind, have: Kind)
  {
    match want
    case Any => true
    case VarAny => true
    case Num => have == Num || have == VarNum
    case VarNum => have == Num || have == VarNum
    case _ => have == want
  }

  /** `v` may stand in a slot of kind `want`, the locals being of kinds `locals`. */
  predicate Fits(want: Kind, v: Value, locals: seq<Kind>)
  {
    if v.Local? then v.i < |locals| && Compatible(want, locals[v.i]) else Makes(want, v)
  }

  /** The locals among the first `n` that may fill a slot of kind `k`. */
  function UsableUpto(k: Kind, locals: seq<Kind>, n: nat): (us: seq<nat>)
    requires n <= |locals|
    ensures forall j :: 0 <= j < |us| ==> us[j] < n && Compatible(k, locals[us[j]])
    ensures forall i: nat :: i < n && Compatible(k, locals[i]) ==> i in us
  {
    if n == 0 then []
    else
      var us := UsableUpto(k, locals, n - 1);
      if Compatible(k, locals[n - 1]) then us + [n - 1] else us
  }

  function Usable(k: Kind, locals: seq<Kind>): seq<nat>
  {
    UsableUpto(k, locals, |locals|)
  }

  /** A usable local, or a value made for the slot. */
  predicate PossibleArg(k: Kind, v: Value, locals: seq<Kind>)
  {
    if v.Local? then v.i < |locals| && Compatible(k, locals[v.i]) else PossibleFor(k, v, MAX_DEPTH)
  }

  function DrawArg(data: seq<Byte>, pos: nat, k: Kind, locals: seq<Kind>): (r: (Value, nat))
    ensures PossibleArg(k, r.0, locals) && pos <= r.1
  {
    var us := Usable(k, locals);
    if us == [] then DrawFresh(data, pos, k)
    else
      var (c, p) := Drawn(data, pos, 0, 1);
      if c == 0 then var (j, q) := Drawn(data, p, 0, |us| - 1); (Local(us[j]), q)
      else DrawFresh(data, p, k)
  }

  function DrawFresh(data: seq<Byte>, pos: nat, k: Kind): (r: (Value, nat))
    ensures PossibleFor(k, r.0, MAX_DEPTH) && !r.0.Local? && pos <= r.1
  {
    DrawValue(data, pos, k, MAX_DEPTH)
  }

  method FillArg(u: Choices, k: Kind, locals: seq<Kind>) returns (v: Value)
    requires u.Valid()
    modifies u
    ensures u.Valid() && old(u.pos) <= u.pos && Fits(k, v, locals)
    ensures (v, u.pos) == DrawArg(u.data, old(u.pos), k, locals)
  {
    hide Drawn, DrawFresh, PossibleFor, Makes;
    var usable := UsableLocals(k, locals);
    if |usable| > 0 {
      var c := u.InRange(0, 1);
      if c == 0 {
        var j := u.InRange(0, |usable| - 1);
        return Local(usable[j]);
      }
    }
    v := GenFresh(u, k);
  }

  method UsableLocals(k: Kind, locals: seq<Kind>) returns (usable: seq<nat>)
    ensures usable == Usable(k, locals)
  {
    usable := [];
    for i := 0 to |locals|
      invariant usable == UsableUpto(k, locals, i)
    {
      if Compatible(k, locals[i]) {
        usable := usable + [i];
      }
    }
  }

  /** A value made for a slot or a local. */
  method GenFresh(u: Choices, k: Kind) returns (v: Value)
    requires u.Valid()
    modifies u
    ensures u.Valid() && old(u.pos) <= u.pos && Makes(k, v) && !v.Local?
    ensures (v, u.pos) == DrawFresh(u.data, old(u.pos), k)
  {
    hide DrawValue, PossibleFor;
    v := GenValue(u, k, MAX_DEPTH);
    MadeIsNoLocal(k, v);
  }

  lemma MadeIsNoLocal(k: Kind, v: Value)
    requires Makes(k, v)
    ensures !v.Local?
  {
  }

  /** A call: which function, the kind of each argument slot, and the arguments. */
  datatype Call = Call(f: nat, slots: seq<Kind>, args: seq<Value>)

  /** `slots` are the argument slots that a list of kinds asks for: a variadic
      kind stands for up to four slots. */
  ghost predicate Expands(kinds: seq<Kind>, slots: seq<Kind>)
  {
    if kinds == [] then slots == []
    else
      var n := |kinds| - 1;
      exists m: nat :: m <= |slots| && Expands(kinds[..n], slots[..m]) && SlotsOf(kinds[n], slots[m..])
  }

  predicate SlotsOf(k: Kind, slots: seq<Kind>)
  {
    if k == VarNum then |slots| <= 4 && forall i :: 0 <= i < |slots| ==> slots[i] == Num
    else if k == VarAny then |slots| <= 4 && forall i :: 0 <= i < |slots| ==> slots[i] == Any
    else slots == [k]
  }

  predicate AllFit(slots: seq<Kind>, args: seq<Value>, locals: seq<Kind>)
  {
    |args| == |slots| && forall i :: 0 <= i < |slots| ==> Fits(slots[i], args[i], locals)
  }

  lemma ExpandsOn(kinds: seq<Kind>, n: nat, slots: seq<Kind>, more: seq<Kind>)
    requires n < |kinds| && Expands(kinds[..n], slots) && SlotsOf(kinds[n], more)
    ensures Expands(kinds[..n + 1], slots + more)
  {
    var ks, ss := kinds[..n + 1], slots + more;
    assert ks[..n] == kinds[..n] && ss[..|slots|] == slots && ss[|slots|..] == more;
  }

  function Wanted(k: Kind): Kind
  {
    if k == VarNum then Num else if k == VarAny then Any else k
  }

  /** Slots and arguments drawn, and how far the bytes are read. */
  datatype Filled = Filled(slots: seq<Kind>, args: seq<Value>, pos: nat)

  /** `n` arguments of kind `want`. */
  function DrawSome(data: seq<Byte>, pos: nat, want: Kind, n: nat, locals: seq<Kind>): (r: Filled)
    ensures |r.slots| == |r.args| == n && pos <= r.pos
    ensures forall i :: 0 <= i < n ==> r.slots[i] == want && PossibleArg(want, r.args[i], locals)
    decreases n
  {
    if n == 0 then Filled([], [], pos)
    else
      var f := DrawSome(data, pos, want, n - 1, locals);
      var (v, p) := DrawArg(data, f.pos, want, locals);
      Filled(f.slots + [want], f.args + [v], p)
  }

  function DrawParam(data: seq<Byte>, pos: nat, k: Kind, locals: seq<Kind>): (r: Filled)
    ensures SlotsOf(k, r.slots) && pos <= r.pos && AllPossible(r.slots, r.args, locals)
  {
    if k == VarNum || k == VarAny then
      var (n, p) := Drawn(data, pos, 0, 4);
      DrawSome(data, p, Wanted(k), n, locals)
    else DrawSome(data, pos, k, 1, locals)
  }

  predicate AllPossible(slots: seq<Kind>, args: seq<Value>, locals: seq<Kind>)
  {
    |args| == |slots| && forall i :: 0 <= i < |slots| ==> PossibleArg(slots[i], args[i], locals)
  }

  /** The arguments for the first `n` of a function's kinds. */
  function DrawParams(data: seq<Byte>, pos: nat, kinds: seq<Kind>, n: nat, locals: seq<Kind>): (r: Filled)
    requires n <= |kinds|
    ensures pos <= r.pos && AllPossible(r.slots, r.args, locals)
    decreases n
  {
    if n == 0 then Filled([], [], pos)
    else
      var f := DrawParams(data, pos, kinds, n - 1, locals);
      var g := DrawParam(data, f.pos, kinds[n - 1], locals);
      Filled(f.slots + g.slots, f.args + g.args, g.pos)
  }

  lemma {:induction false} ParamsExpand(data: seq<Byte>, pos: nat, kinds: seq<Kind>, n: nat, locals: seq<Kind>)
    requires n <= |kinds|
    ensures Expands(kinds[..n], DrawParams(data, pos, kinds, n, locals).slots)
    decreases n
  {
    hide DrawParam, Expands, AllPossible;
    if n == 0 {
      assert Expands([], []) by { NoneExpands(); }
    } else {
      ParamsExpand(data, pos, kinds, n - 1, locals);
      var f := DrawParams(data, pos, kinds, n - 1, locals);
      ExpandsOn(kinds, n - 1, f.slots, DrawParam(data, f.pos, kinds[n - 1], locals).slots);
    }
  }

  lemma NoneExpands()
    ensures Expands([], [])
  {
  }

  method BuildCall(u: Choices, f: nat, kinds: seq<Kind>, locals: seq<Kind>) returns (c: Call)
    requires u.Valid()
    modifies u
    ensures u.Valid() && old(u.pos) <= u.pos && c.f == f && Expands(kinds, c.slots) && AllFit(c.slots, c.args, locals)
    ensures DrawParams(u.data, old(u.pos), kinds, |kinds|, locals) == Filled(c.slots, c.args, u.pos)
  {
    hide Drawn, DrawParam, DrawArg, Expands, AllPossible, PossibleArg, Fits;
    var slots, args := [], [];
    ghost var start := u.pos;
    for i := 0 to |kinds|
      invariant u.Valid() && old(u.pos) <= u.pos && AllFit(slots, args, locals)
      invariant DrawParams(u.data, start, kinds, i, locals) == Filled(slots, args, u.pos)
    {
      var more, values := FillParam(u, kinds[i], locals);
      slots, args := slots + more, args + values;
    }
    ParamsExpand(u.data, start, kinds, |kinds|, locals);
    assert kinds[..|kinds|] == kinds;
    c := Call(f, slots, args);
  }

  /** The arguments that one of a function's kinds stands for. */
  method FillParam(u: Choices, k: Kind, locals: seq<Kind>) returns (slots: seq<Kind>, args: seq<Value>)
    requires u.Valid()
    modifies u
    ensures u.Valid() && old(u.pos) <= u.pos && AllFit(slots, args, locals)
    ensures DrawParam(u.data, old(u.pos), k, locals) == Filled(slots, args, u.pos)
  {
    hide Drawn, DrawArg, PossibleArg, Fits;
    var n := 1;
    if k == VarNum || k == VarAny {
      n := u.InRange(0, 4);
    }
    var want := if k == VarNum then Num else if k == VarAny then Any else k;
    slots, args := [], [];
    ghost var start := u.pos;
    for j := 0 to n
      invariant u.Valid() && old(u.pos) <= u.pos && AllFit(slots, args, locals)
      invariant DrawSome(u.data, start, want, j, locals) == Filled(slots, args, u.pos)
    {
      var v := FillArg(u, want, locals);
      slots, args := slots + [want], args + [v];
    }
  }

  datatype Program = Program(kinds: seq<Kind>, locals: seq<Value>, calls: seq<Call>, rounds: nat)

  const ROUNDS: seq<nat> := [0, 4, 16, 64]

  /** Every argument fits its slot, and every slot is asked for by the function. */
  ghost predicate WellKinded(api: seq<Api>, p: Program)
  {
    && |p.kinds| == |p.locals|
    && (forall i :: 0 <= i < |p.kinds| ==> p.kinds[i] in VALUE_KINDS && Makes(p.kinds[i], p.locals[i]))
    && forall c :: 0 <= c < |p.calls| ==> WellKindedCall(api, p.kinds, p.calls[c])
  }

  ghost predicate WellKindedCall(api: seq<Api>, locals: seq<Kind>, c: Call)
  {
    c.f < |api| && Expands(api[c.f].kinds, c.slots) && AllFit(c.slots, c.args, locals)
  }

  /** Locals of the kinds of values, drawn one after the other. */
  function DrawLocals(data: seq<Byte>, pos: nat, n: nat): (r: Filled)
    ensures |r.slots| == |r.args| == n && pos <= r.pos
    ensures forall i :: 0 <= i < n ==> PossibleLocal(r.slots[i], r.args[i])
    decreases n
  {
    if n == 0 then Filled([], [], pos)
    else
      var f := DrawLocals(data, pos, n - 1);
      var l := DrawLocal(data, f.pos);
      Filled(f.slots + l.slots, f.args + l.args, l.pos)
  }

  function DrawLocal(data: seq<Byte>, pos: nat): (r: Filled)
    ensures |r.slots| == |r.args| == 1 && pos <= r.pos && PossibleLocal(r.slots[0], r.args[0])
  {
    var (k, p) := DrawKind(data, pos);
    var (v, q) := DrawFresh(data, p, k);
    Filled([k], [v], q)
  }

  predicate PossibleLocal(k: Kind, v: Value)
  {
    k in VALUE_KINDS && PossibleFor(k, v, MAX_DEPTH)
  }

  function DrawCalls(api: seq<Api>, data: seq<Byte>, pos: nat, n: nat, locals: seq<Kind>): (r: (seq<Call>, nat))
    requires api != []
    ensures |r.0| == n && pos <= r.1
    decreases n
  {
    if n == 0 then ([], pos)
    else
      var (cs, p) := DrawCalls(api, data, pos, n - 1, locals);
      var (f, q) := Drawn(data, p, 0, |api| - 1);
      var a := DrawParams(data, q, api[f].kinds, |api[f].kinds|, locals);
      (cs + [Call(f, a.slots, a.args)], a.pos)
  }

  /** The program that bytes ask for. */
  function DrawProgram(api: seq<Api>, data: seq<Byte>): Program
    requires api != []
  {
    var (n, p) := Drawn(data, 0, 0, 3);
    var ls := DrawLocals(data, p, n);
    var (m, q) := Drawn(data, ls.pos, 1, 3);
    var (cs, s) := DrawCalls(api, data, q, m, ls.slots);
    var (r, z) := Drawn(data, s, 0, |ROUNDS| - 1);
    Program(ls.slots, ls.args, cs, ROUNDS[r])
  }

  method Generate(api: seq<Api>, data: seq<Byte>) returns (p: Program)
    requires api != []
    ensures WellKinded(api, p) && |p.locals| <= 3 && 1 <= |p.calls| <= 3 && p.rounds <= 64
    ensures p == DrawProgram(api, data)
  {
    hide Drawn, DrawKind, DrawFresh, DrawParams, DrawLocals, DrawCalls, WellKindedCall, Makes, PossibleFor;
    var u := new Choices(data);
    var n := u.InRange(0, 3);
    var kinds, locals := Locals(u, n);
    var m := u.InRange(1, 3);
    var calls := Calls(u, api, m, kinds);
    var r := u.InRange(0, |ROUNDS| - 1);
    p := Program(kinds, locals, calls, ROUNDS[r]);
  }

  ghost predicate AllLocals(kinds: seq<Kind>, locals: seq<Value>)
  {
    |kinds| == |locals| && forall i :: 0 <= i < |kinds| ==> kinds[i] in VALUE_KINDS && Makes(kinds[i], locals[i])
  }

  method Locals(u: Choices, n: nat) returns (kinds: seq<Kind>, locals: seq<Value>)
    requires u.Valid()
    modifies u
    ensures u.Valid() && |kinds| == |locals| == n && AllLocals(kinds, locals)
    ensures DrawLocals(u.data, old(u.pos), n) == Filled(kinds, locals, u.pos)
  {
    hide DrawLocal, PossibleLocal, Makes;
    kinds, locals := [], [];
    ghost var start := u.pos;
    for i := 0 to n
      invariant u.Valid() && |kinds| == i && AllLocals(kinds, locals)
      invariant DrawLocals(u.data, start, i) == Filled(kinds, locals, u.pos)
    {
      var k, v := GenLocal(u);
      kinds, locals := kinds + [k], locals + [v];
    }
  }

  method GenLocal(u: Choices) returns (k: Kind, v: Value)
    requires u.Valid()
    modifies u
    ensures u.Valid() && k in VALUE_KINDS && Makes(k, v) && DrawLocal(u.data, old(u.pos)) == Filled([k], [v], u.pos)
  {
    hide DrawKind, DrawFresh, PossibleFor, Makes;
    k := PickKind(u);
    v := GenFresh(u, k);
  }

  method Calls(u: Choices, api: seq<Api>, n: nat, kinds: seq<Kind>) returns (calls: seq<Call>)
    requires u.Valid() && api != []
    modifies u
    ensures u.Valid() && |calls| == n && (calls, u.pos) == DrawCalls(api, u.data, old(u.pos), n, kinds)
    ensures forall c :: 0 <= c < n ==> WellKindedCall(api, kinds, calls[c])
  {
    hide Drawn, DrawParams, Expands, AllFit;
    calls := [];
    ghost var start := u.pos;
    for i := 0 to n
      invariant u.Valid() && |calls| == i && (calls, u.pos) == DrawCalls(api, u.data, start, i, kinds)
      invariant forall c :: 0 <= c < i ==> WellKindedCall(api, kinds, calls[c])
    {
      var f := u.InRange(0, |api| - 1);
      var call := BuildCall(u, f, api[f].kinds, kinds);
      calls := calls + [call];
    }
  }

  /** Whatever the bytes, an argument that drives an allocation or a copy loop is
      a number literal of bounded size: no local can get there. */
  lemma CountsAreBounded(api: seq<Api>, p: Program, c: nat, i: nat)
    requires WellKinded(api, p) && c < |p.calls| && i < |p.calls[c].slots| && p.calls[c].slots[i] == Idx
    ensures var v := p.calls[c].args[i]; v.Small? && -2000 <= v.n <= 2000
  {
    var call := p.calls[c];
    assert WellKindedCall(api, p.kinds, call);
    assert Fits(Idx, call.args[i], p.kinds);
  }

  /** A call has exactly as many slots for counts as the function asks for, and
      the same goes for every kind that nothing variadic expands to. */
  lemma {:induction false} EveryCountHasItsSlot(kinds: seq<Kind>, slots: seq<Kind>, k: Kind)
    requires Expands(kinds, slots) && k !in {Num, Any, VarNum, VarAny}
    ensures multiset(slots)[k] == multiset(kinds)[k]
    decreases |kinds|
  {
    if kinds != [] {
      var n := |kinds| - 1;
      var m: nat :| m <= |slots| && Expands(kinds[..n], slots[..m]) && SlotsOf(kinds[n], slots[m..]);
      EveryCountHasItsSlot(kinds[..n], slots[..m], k);
      SlotsCount(kinds[n], slots[m..], k);
      assert slots == slots[..m] + slots[m..] && kinds == kinds[..n] + [kinds[n]];
    }
  }

  lemma SlotsCount(kind: Kind, slots: seq<Kind>, k: Kind)
    requires SlotsOf(kind, slots) && k !in {Num, Any, VarNum, VarAny}
    ensures multiset(slots)[k] == multiset{kind}[k]
  {
    if k in slots {
      assert slots == [kind];
    }
  }

  // ----- the deterministic sweep -----

  datatype Probe = Count(n: int) | Literal(s: string)

  function Literals(ss: seq<string>): seq<Probe>
  {
    seq(|ss|, i requires 0 <= i < |ss| => Literal(ss[i]))
  }

  /** A harmless argument. */
  function Safe(k: Kind): Probe
  {
    match k
    case Num => Literal("1")
    case VarNum => Literal("1")
    case Idx => Count(1)
    case Str => Literal("\"x\"")
    case Tbl => Literal("{1, 2, 3}")
    case Fn => Literal("function(a, b) return a < b end")
    case Bool => Literal("true")
    case Buf => Literal("buffer.create(8)")
    case Vec => Literal("vector.create(1, 2, 3)")
    case Any => Literal("1")
    case VarAny => Literal("1")
  }

  /** The most dangerous arguments. */
  function Danger(k: Kind): seq<Probe>
  {
    match k
    case Num => Literals(["-2147483648", "2147483647", "2^53", "-1", "0"])
    case VarNum => Literals(["-2147483648", "2147483647", "2^53", "-1", "0"])
    case Idx => [Count(2000), Count(-1000), Count(-1), Count(0)]
    case Str => Literals(["\"\"", "(\"ab\"):rep(40000)"])
    case Tbl => Literals(["{}", "{1, 2, 3}", "{[2147483647] = false}"])
    case Buf => Literals(["buffer.create(0)", "buffer.create(8)"])
    case Fn => Literals(["function() error(\"x\") end"])
    case Bool => Literals(["true", "false"])
    case Vec => Literals(["vector.create(0, 0, 0)", "vector.create(1/0, 0/0, -1e308)"])
    case Any => Literals(["nil", "-2147483648"])
    case VarAny => Literals(["nil", "-2147483648"])
  }

  /** All boundary values; `others` has the pools of every kind but counts. */
  function Pool(k: Kind, others: map<Kind, seq<string>>): seq<Probe>
  {
    if k == Idx then seq(|SMALL_POOL|, i requires 0 <= i < |SMALL_POOL| => Count(SMALL_POOL[i]))
    else if k in others then Literals(others[k]) else []
  }

  /** Arguments with position `a` set to `va` and then, if it is another one, `b` to `vb`. */
  function Build(kinds: seq<Kind>, a: nat, va: Probe, b: nat, vb: Probe): (args: seq<Probe>)
    ensures |args| == |kinds|
  {
    seq(|kinds|, j requires 0 <= j < |kinds| => if j == a then va else if j == b then vb else Safe(kinds[j]))
  }

  /** A count is a bounded number, whatever else is probed. */
  predicate Bounded(kinds: seq<Kind>, args: seq<Probe>)
  {
    && |args| == |kinds|
    && forall j :: 0 <= j < |kinds| && kinds[j] == Idx ==> args[j].Count? && -LIMIT <= args[j].n <= LIMIT
  }

  predicate BoundedProbe(k: Kind, v: Probe)
  {
    k == Idx ==> v.Count? && -LIMIT <= v.n <= LIMIT
  }

  lemma ProbesAreBounded(k: Kind, others: map<Kind, seq<string>>, i: nat)
    ensures BoundedProbe(k, Safe(k))
    ensures i < |Danger(k)| ==> BoundedProbe(k, Danger(k)[i])
    ensures i < |Pool(k, others)| ==> BoundedProbe(k, Pool(k, others)[i])
  {
  }

  lemma BuildIsBounded(kinds: seq<Kind>, a: nat, va: Probe, b: nat, vb: Probe)
    requires a < |kinds| && b < |kinds| && BoundedProbe(kinds[a], va) && BoundedProbe(kinds[b], vb)
    ensures Bounded(kinds, Build(kinds, a, va, b, vb))
  {
    forall j | 0 <= j < |kinds| && kinds[j] == Idx
      ensures var args := Build(kinds, a, va, b, vb); args[j].Count? && -LIMIT <= args[j].n <= LIMIT
    {
      ProbesAreBounded(Idx, map[], 0);
    }
  }

  /** Position `a` with every boundary value, the others harmless. */
  method SingleProbes(kinds: seq<Kind>, others: map<Kind, seq<string>>, a: nat) returns (out: seq<seq<Probe>>)
    requires a < |kinds|
    ensures forall x :: x in out ==> Bounded(kinds, x)
    ensures SweepsOne(kinds, others, out, a)
  {
    hide Build, Bounded, Pool;
    out := [];
    var pool := Pool(kinds[a], others);
    for n := 0 to |pool|
      invariant forall x :: x in out ==> Bounded(kinds, x)
      invariant forall i :: 0 <= i < n ==> Build(kinds, a, pool[i], a, Safe(kinds[a])) in out
    {
      ProbesAreBounded(kinds[a], others, n);
      BuildIsBounded(kinds, a, pool[n], a, Safe(kinds[a]));
      out := out + [Build(kinds, a, pool[n], a, Safe(kinds[a]))];
    }
  }

  /** Positions `a` and `b` with every pair of dangerous values. */
  method PairProbes(kinds: seq<Kind>, a: nat, b: nat) returns (out: seq<seq<Probe>>)
    requires a < b < |kinds|
    ensures forall x :: x in out ==> Bounded(kinds, x)
    ensures SweepsTwo(kinds, out, a, b)
  {
    hide Build, Bounded, Danger;
    out := [];
    var da, db := Danger(kinds[a]), Danger(kinds[b]);
    for n := 0 to |da|
      invariant forall x :: x in out ==> Bounded(kinds, x)
      invariant forall i, j :: 0 <= i < n && 0 <= j < |db| ==> Build(kinds, a, da[i], b, db[j]) in out
    {
      for m := 0 to |db|
        invariant forall x :: x in out ==> Bounded(kinds, x)
        invariant forall i, j :: 0 <= i < n && 0 <= j < |db| ==> Build(kinds, a, da[i], b, db[j]) in out
        invariant forall j :: 0 <= j < m ==> Build(kinds, a, da[n], b, db[j]) in out
      {
        ProbesAreBounded(kinds[a], map[], n);
        ProbesAreBounded(kinds[b], map[], m);
        BuildIsBounded(kinds, a, da[n], b, db[m]);
        out := out + [Build(kinds, a, da[n], b, db[m])];
      }
    }
  }

  /** Everything about position `a` alone, and about `a` and `b` together, is there. */
  ghost predicate SweepsOne(kinds: seq<Kind>, others: map<Kind, seq<string>>, out: seq<seq<Probe>>, a: nat)
    requires a < |kinds|
  {
    forall i :: 0 <= i < |Pool(kinds[a], others)|
        ==> Build(kinds, a, Pool(kinds[a], others)[i], a, Safe(kinds[a])) in out
  }

  ghost predicate SweepsTwo(kinds: seq<Kind>, out: seq<seq<Probe>>, a: nat, b: nat)
    requires a < b < |kinds|
  {
    forall i, j :: 0 <= i < |Danger(kinds[a])| && 0 <= j < |Danger(kinds[b])| ==>
      Build(kinds, a, Danger(kinds[a])[i], b, Danger(kinds[b])[j]) in out
  }

  /** What is swept stays swept when probes are added on either side. */
  lemma SweepsMore(kinds: seq<Kind>, others: map<Kind, seq<string>>, out: seq<seq<Probe>>, more: seq<seq<Probe>>,
                   a: nat, b: nat)
    requires a < |kinds|
    ensures SweepsOne(kinds, others, out, a) || SweepsOne(kinds, others, more, a)
      ==> SweepsOne(kinds, others, out + more, a)
    ensures a < b < |kinds| && (SweepsTwo(kinds, out, a, b) || SweepsTwo(kinds, more, a, b))
      ==> SweepsTwo(kinds, out + more, a, b)
  {
  }

  method AllSingles(kinds: seq<Kind>, others: map<Kind, seq<string>>) returns (out: seq<seq<Probe>>)
    ensures forall x :: x in out ==> Bounded(kinds, x)
    ensures forall a: nat :: a < |kinds| ==> SweepsOne(kinds, others, out, a)
  {
    hide SweepsOne, Bounded;
    out := [];
    for a := 0 to |kinds|
      invariant forall x :: x in out ==> Bounded(kinds, x)
      invariant forall c: nat :: c < a ==> SweepsOne(kinds, others, out, c)
    {
      var more := SingleProbes(kinds, others, a);
      forall c: nat | c <= a ensures SweepsOne(kinds, others, out + more, c) {
        SweepsMore(kinds, others, out, more, c, 0);
      }
      out := out + more;
    }
  }

  /** All pairs whose first position is `a`. */
  method PairsFrom(kinds: seq<Kind>, a: nat) returns (out: seq<seq<Probe>>)
    requires a < |kinds|
    ensures forall x :: x in out ==> Bounded(kinds, x)
    ensures forall b: nat :: a < b < |kinds| ==> SweepsTwo(kinds, out, a, b)
  {
    hide SweepsTwo, Bounded;
    out := [];
    for b := a + 1 to |kinds|
      invariant forall x :: x in out ==> Bounded(kinds, x)
      invariant forall d: nat :: a < d < b ==> SweepsTwo(kinds, out, a, d)
    {
      var more := PairProbes(kinds, a, b);
      forall d: nat | a < d <= b ensures SweepsTwo(kinds, out + more, a, d) {
        SweepsMore(kinds, map[], out, more, a, d);
      }
      out := out + more;
    }
  }

  /** The whole sweep for one function: every boundary value in every position,
      every pair of dangerous values in every two positions, all counts bounded. */
  method ProbeCalls(kinds: seq<Kind>, others: map<Kind, seq<string>>) returns (out: seq<seq<Probe>>)
    ensures kinds == [] ==> out == [[]]
    ensures forall x :: x in out ==> Bounded(kinds, x)
    ensures forall a: nat :: a < |kinds| ==> SweepsOne(kinds, others, out, a)
    ensures forall a: nat, b: nat :: a < b < |kinds| ==> SweepsTwo(kinds, out, a, b)
  {
    if |kinds| == 0 {
      return [[]];
    }
    hide SweepsOne, SweepsTwo, Bounded;
    out := AllSingles(kinds, others);
    for a := 0 to |kinds|
      invariant forall x :: x in out ==> Bounded(kinds, x)
      invariant forall c: nat :: c < |kinds| ==> SweepsOne(kinds, others, out, c)
      invariant forall c: nat, d: nat :: c < a && c < d < |kinds| ==> SweepsTwo(kinds, out, c, d)
    {
      var more := PairsFrom(kinds, a);
      forall c: nat | c < |kinds| ensures SweepsOne(kinds, others, out + more, c) {
        SweepsMore(kinds, others, out, more, c, 0);
      }
      forall c: nat, d: nat | c <= a && c < d < |kinds| ensures SweepsTwo(kinds, out + more, c, d) {
        SweepsMore(kinds, others, out, more, c, d);
      }
      out := out + more;
    }
  }
}
