/** Lazily typed memory means the same as memory decoded eagerly from its history. */
module TypedMemory {
  import opened Words
  import opened FlatMemory

  datatype Ty = TData | TPtr | TVector | TScalar

  datatype Val = XData(data: Vec4) | XPtr(ptr: FatPtr) | XVector(vec: Vec8) | XScalar(scalar: i32) {
    function Type(): Ty {
      match this
      case XData(_) => TData
      case XPtr(_) => TPtr
      case XVector(_) => TVector
      case XScalar(_) => TScalar
    }
  }

  /** A host store of one entry, a typed read or a typed write. */
  datatype Op = Host(addr: u32, bytes: Bytes16) | Get(addr: u32, ty: Ty) | Put(addr: u32, val: Val)

  function ValOf<T>(r: Option<T>, f: T -> Val): Option<Val> {
    if r.Some? then Some(f(r.value)) else None
  }

  /** A read through the accessor for `ty`. */
  function Read(m: Mem, a: u32, ty: Ty): (Option<Val>, Mem) {
    match ty
    case TData => (var (r, m') := ReadData(m, a); (ValOf(r, x => XData(x)), m'))
    case TPtr => (var (r, m') := ReadFptr(m, a); (ValOf(r, x => XPtr(x)), m'))
    case TVector => (var (r, m') := ReadV(m, a); (ValOf(r, x => XVector(x)), m'))
    case TScalar => (var (r, m') := ReadS(m, a); (ValOf(r, x => XScalar(x)), m'))
  }

  function Write(m: Mem, a: u32, v: Val): (bool, Mem) {
    match v
    case XData(x) => WriteData(m, a, x)
    case XPtr(x) => WriteFptr(m, a, x)
    case XVector(x) => WriteV(m, a, x)
    case XScalar(x) => WriteS(m, a, x)
  }

  function Do(m: Mem, op: Op): Mem {
    match op
    case Host(a, b) => Mirror(m, a, b)
    case Get(a, ty) => Read(m, a, ty).1
    case Put(a, v) => Write(m, a, v).1
  }

  /** A fresh memory after a history of operations. */
  function After(h: seq<Op>): Mem {
    if h == [] then map[] else Do(After(h[..|h| - 1]), h[|h| - 1])
  }

  // ---- the reference: what the history alone says ----

  function Decode(ty: Ty, b: Bytes16): Val {
    match ty
    case TData => XData(DecodeCpuData(b))
    case TPtr => XPtr(DecodeCpuFatPtr(b))
    case TVector => XVector(DecodePeVector(b))
    case TScalar => XScalar(DecodePeScalar(b))
  }

  /** Reading an entry nobody ever stored: zero, except that there is no zero pointer. */
  function Default(ty: Ty): Option<Val> {
    match ty
    case TData => Some(XData(ZERO4))
    case TPtr => None
    case TVector => Some(XVector([0, 0, 0, 0, 0, 0, 0, 0]))
    case TScalar => Some(XScalar(0))
  }

  datatype Last = Never | Bytes(b: Bytes16) | Stored(v: Val)

  predicate Admits(tag: Option<Ty>, ty: Ty) {
    tag == None || tag == Some(ty)
  }

  /** The type an entry is claimed for: that of the first typed access that reached it. */
  function TagOf(h: seq<Op>, a: u32): Option<Ty> {
    if h == [] then None
    else
      var before := h[..|h| - 1];
      if TagOf(before, a) != None then TagOf(before, a)
      else match h[|h| - 1]
        case Get(b, ty) => if a == b && LastOf(before, a) != Never then Some(ty) else None
        case Put(b, v) => if a == b then Some(v.Type()) else None
        case Host(_, _) => None
  }

  /** The latest accepted store: host bytes, or a typed write the tag admits. */
  function LastOf(h: seq<Op>, a: u32): Last {
    if h == [] then Never
    else
      var before := h[..|h| - 1];
      match h[|h| - 1]
      case Host(b, bytes) => if a == b then Bytes(bytes) else LastOf(before, a)
      case Put(b, v) => if a == b && Admits(TagOf(before, a), v.Type()) then Stored(v) else LastOf(before, a)
      case Get(_, _) => LastOf(before, a)
  }

  function Expected(h: seq<Op>, a: u32, ty: Ty): Option<Val> {
    match LastOf(h, a)
    case Never => Default(ty)
    case Bytes(b) => if Admits(TagOf(h, a), ty) then Some(Decode(ty, b)) else None
    case Stored(v) => if v.Type() == ty then Some(v) else None
  }

  // ---- the simulation ----

  /** What the history says about one entry of the lazily typed memory. */
  predicate EntryIs(e: Entry, tag: Option<Ty>, last: Last) {
    match tag
    case None => last.Bytes? && e == Untyped(last.b)
    case Some(ty) =>
      var v := if last.Bytes? then Decode(ty, last.b) else if last.Stored? then last.v else XScalar(0);
      last != Never && v.Type() == ty &&
      match v
      case XData(x) => e == CpuData(x)
      case XPtr(x) => e == CpuFatPtr(x)
      case XVector(x) => e == PeVector(x)
      case XScalar(x) => e == PeScalar(x)
  }

  ghost predicate Agrees(m: Mem, h: seq<Op>, a: u32) {
    if a in m then EntryIs(m[a], TagOf(h, a), LastOf(h, a))
    else TagOf(h, a) == None && LastOf(h, a) == Never
  }

  lemma {:induction false} AfterAgrees(h: seq<Op>, a: u32)
    ensures Agrees(After(h), h, a)
  {
    hide DecodeCpuData; hide DecodeCpuFatPtr; hide DecodePeVector; hide DecodePeScalar;
    if h != [] {
      AfterAgrees(h[..|h| - 1], a);
    }
  }

  /** Lazy typing equals eager decoding: after any history, through any accessor, a read returns the
      later of the last accepted typed write and the decoding of the last bytes from the host; and it
      is refused exactly when the entry was claimed for another type. */
  lemma LazyIsEager(h: seq<Op>, a: u32, ty: Ty)
    ensures Read(After(h), a, ty).0 == Expected(h, a, ty)
    ensures Read(After(h), a, ty).0 == None <==>
            (if LastOf(h, a) == Never then ty == TPtr else !Admits(TagOf(h, a), ty))
  {
    AfterAgrees(h, a);
    hide DecodeCpuData; hide DecodeCpuFatPtr; hide DecodePeVector; hide DecodePeScalar;
  }

  /** A typed write is accepted exactly when the tag admits it. */
  lemma WriteAccepted(h: seq<Op>, a: u32, v: Val)
    ensures Write(After(h), a, v).0 == Admits(TagOf(h, a), v.Type())
  {
    AfterAgrees(h, a);
  }

  /** A tag moves from untyped to one type and never changes again. */
  lemma {:induction false} TagIsForLife(h: seq<Op>, more: seq<Op>, a: u32)
    requires TagOf(h, a) != None
    ensures TagOf(h + more, a) == TagOf(h, a)
  {
    if more == [] {
      assert h + more == h;
    } else {
      TagIsForLife(h, more[..|more| - 1], a);
      assert (h + more)[..|h + more| - 1] == h + more[..|more| - 1];
    }
  }

  /** Reads do not change what any later read returns, except by fixing the type. */
  lemma ReadsOnlyClaim(h: seq<Op>, g: Op, a: u32, ty: Ty)
    requires g.Get? && Admits(TagOf(h + [g], a), ty)
    ensures Expected(h + [g], a, ty) == Expected(h, a, ty)
  {
    assert (h + [g])[..|h + [g]| - 1] == h;
    AfterAgrees(h, a);
  }
}
