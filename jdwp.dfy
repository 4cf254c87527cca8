/**
 * The value model of the Java Debug Wire Protocol client (lib/Debugger/Jdwp/jdwp.h):
 * fixed-width identifiers, the protocol's constant tables, the tagged value JValue with
 * its constructors and its hand-written equality, and the tagged modifier EventMod.
 */
module Jdwp {
  import opened Wrappers

  // ---------------------------------------------------------------------------------
  // Fixed-width integers and identifiers
  // ---------------------------------------------------------------------------------

  type u8 = x: int | 0 <= x < 0x100
  type u32 = x: int | 0 <= x < 0x1_0000_0000
  type u64 = x: int | 0 <= x < 0x1_0000_0000_0000_0000
  type i16 = x: int | -0x8000 <= x < 0x8000
  type i32 = x: int | -0x8000_0000 <= x < 0x8000_0000
  type i64 = x: int | -0x8000_0000_0000_0000 <= x < 0x8000_0000_0000_0000

  /** Field and method ids are 32 bits wide. */
  type FieldId = u32
  type MethodId = u32
  /** Object, reference-type and frame ids are 64 bits wide; ObjectId and RefTypeId agree. */
  type ObjectId = u64
  type RefTypeId = ObjectId
  type FrameId = u64

  // ---------------------------------------------------------------------------------
  // Constant tables
  // ---------------------------------------------------------------------------------

  /** The value tags, each encoded on the wire as one ASCII character. */
  datatype Tag =
    | ArrayTag | ByteTag | CharTag | ObjectTag | FloatTag | DoubleTag | IntTag | LongTag
    | ShortTag | VoidTag | BooleanTag | StringTag | ThreadTag | ThreadGroupTag
    | ClassLoaderTag | ClassObjectTag

  function TagCode(t: Tag): (c: char)
    ensures TagOf(c) == Some(t)
  {
    match t
    case ArrayTag => '['
    case ByteTag => 'B'
    case CharTag => 'C'
    case ObjectTag => 'L'
    case FloatTag => 'F'
    case DoubleTag => 'D'
    case IntTag => 'I'
    case LongTag => 'J'
    case ShortTag => 'S'
    case VoidTag => 'V'
    case BooleanTag => 'Z'
    case StringTag => 's'
    case ThreadTag => 't'
    case ThreadGroupTag => 'g'
    case ClassLoaderTag => 'l'
    case ClassObjectTag => 'c'
  }

  /** Reads a tag character back; characters that are no tag give None. */
  function TagOf(c: char): Option<Tag> {
    match c
    case '[' => Some(ArrayTag)
    case 'B' => Some(ByteTag)
    case 'C' => Some(CharTag)
    case 'L' => Some(ObjectTag)
    case 'F' => Some(FloatTag)
    case 'D' => Some(DoubleTag)
    case 'I' => Some(IntTag)
    case 'J' => Some(LongTag)
    case 'S' => Some(ShortTag)
    case 'V' => Some(VoidTag)
    case 'Z' => Some(BooleanTag)
    case 's' => Some(StringTag)
    case 't' => Some(ThreadTag)
    case 'g' => Some(ThreadGroupTag)
    case 'l' => Some(ClassLoaderTag)
    case 'c' => Some(ClassObjectTag)
    case _ => None
  }

  /** The kind of a reference type. */
  datatype TypeTag = ClassType | InterfaceType | ArrayType

  function TypeTagCode(t: TypeTag): (c: u8)
    ensures TypeTagOf(c) == Some(t)
  {
    match t
    case ClassType => 1
    case InterfaceType => 2
    case ArrayType => 3
  }

  function TypeTagOf(c: int): Option<TypeTag> {
    if c == 1 then Some(ClassType)
    else if c == 2 then Some(InterfaceType)
    else if c == 3 then Some(ArrayType)
    else None
  }

  datatype EventKind =
    | SingleStep | Breakpoint | FramePop | Exception | UserDefined | ThreadStart
    | ThreadDeath | ClassPrepare | ClassUnload | ClassLoad | FieldAccess
    | FieldModification | ExceptionCatch | MethodEntry | MethodExit
    | MethodExitWithReturnValue | MonitorContendedEnter | MonitorContendedEntered
    | MonitorWait | MonitorWaited | VmStart | VmDeath | VmDisconnected

  function EventKindCode(k: EventKind): (c: u8)
    ensures EventKindOf(c) == Some(k)
  {
    match k
    case SingleStep => 1
    case Breakpoint => 2
    case FramePop => 3
    case Exception => 4
    case UserDefined => 5
    case ThreadStart => 6
    case ThreadDeath => 7
    case ClassPrepare => 8
    case ClassUnload => 9
    case ClassLoad => 10
    case FieldAccess => 20
    case FieldModification => 21
    case ExceptionCatch => 30
    case MethodEntry => 40
    case MethodExit => 41
    case MethodExitWithReturnValue => 42
    case MonitorContendedEnter => 43
    case MonitorContendedEntered => 44
    case MonitorWait => 45
    case MonitorWaited => 46
    case VmStart => 90
    case VmDeath => 99
    case VmDisconnected => 100
  }

  function EventKindOf(c: int): Option<EventKind> {
    match c
    case 1 => Some(SingleStep)
    case 2 => Some(Breakpoint)
    case 3 => Some(FramePop)
    case 4 => Some(Exception)
    case 5 => Some(UserDefined)
    case 6 => Some(ThreadStart)
    case 7 => Some(ThreadDeath)
    case 8 => Some(ClassPrepare)
    case 9 => Some(ClassUnload)
    case 10 => Some(ClassLoad)
    case 20 => Some(FieldAccess)
    case 21 => Some(FieldModification)
    case 30 => Some(ExceptionCatch)
    case 40 => Some(MethodEntry)
    case 41 => Some(MethodExit)
    case 42 => Some(MethodExitWithReturnValue)
    case 43 => Some(MonitorContendedEnter)
    case 44 => Some(MonitorContendedEntered)
    case 45 => Some(MonitorWait)
    case 46 => Some(MonitorWaited)
    case 90 => Some(VmStart)
    case 99 => Some(VmDeath)
    case 100 => Some(VmDisconnected)
    case _ => None
  }

  datatype SuspendPolicy = SuspendNone | SuspendEventThread | SuspendAll

  function SuspendPolicyCode(p: SuspendPolicy): (c: u8)
    ensures SuspendPolicyOf(c) == Some(p)
  {
    match p
    case SuspendNone => 0
    case SuspendEventThread => 1
    case SuspendAll => 2
  }

  function SuspendPolicyOf(c: int): Option<SuspendPolicy> {
    if c == 0 then Some(SuspendNone)
    else if c == 1 then Some(SuspendEventThread)
    else if c == 2 then Some(SuspendAll)
    else None
  }

  datatype ModKind =
    | Count | Conditional | ThreadOnly | ClassOnly | ClassMatch | ClassExclude
    | LocationOnly | ExceptionOnly | FieldOnly | Step | InstanceOnly | SourceNameMatch

  function ModKindCode(k: ModKind): (c: u8)
    ensures ModKindOf(c) == Some(k)
  {
    match k
    case Count => 1
    case Conditional => 2
    case ThreadOnly => 3
    case ClassOnly => 4
    case ClassMatch => 5
    case ClassExclude => 6
    case LocationOnly => 7
    case ExceptionOnly => 8
    case FieldOnly => 9
    case Step => 10
    case InstanceOnly => 11
    case SourceNameMatch => 12
  }

  function ModKindOf(c: int): Option<ModKind> {
    match c
    case 1 => Some(Count)
    case 2 => Some(Conditional)
    case 3 => Some(ThreadOnly)
    case 4 => Some(ClassOnly)
    case 5 => Some(ClassMatch)
    case 6 => Some(ClassExclude)
    case 7 => Some(LocationOnly)
    case 8 => Some(ExceptionOnly)
    case 9 => Some(FieldOnly)
    case 10 => Some(Step)
    case 11 => Some(InstanceOnly)
    case 12 => Some(SourceNameMatch)
    case _ => None
  }

  /** Each decoder reads back only the code of the constant it returns: the codes are distinct. */
  lemma {:induction false} ConstantCodesDistinct(ch: char, c: int)
    ensures TagOf(ch).Some? ==> TagCode(TagOf(ch).value) == ch
    ensures TypeTagOf(c).Some? ==> TypeTagCode(TypeTagOf(c).value) == c
    ensures EventKindOf(c).Some? ==> EventKindCode(EventKindOf(c).value) == c
    ensures SuspendPolicyOf(c).Some? ==> SuspendPolicyCode(SuspendPolicyOf(c).value) == c
    ensures ModKindOf(c).Some? ==> ModKindCode(ModKindOf(c).value) == c
  {
  }

  // ---------------------------------------------------------------------------------
  // JValue: a tag and an eight-byte union
  // ---------------------------------------------------------------------------------

  /**
   * The union is modelled as the 64-bit word `L` that the equality reads, on a
   * little-endian host: the member written by a constructor occupies the low bytes.
   * Float and double members are not modelled.
   */
  datatype JValue = JValue(tag: Tag, word: u64)

  /** The union read through its one-byte members B and Z. */
  function ByteOf(v: JValue): u8 { v.word % 0x100 }
  function BooleanOf(v: JValue): bool { v.word % 0x100 != 0 }

  /** The union read through its 16-bit signed members C and S. */
  function ShortOf(v: JValue): i16 {
    var u := v.word % 0x1_0000;
    if u < 0x8000 then u else u - 0x1_0000
  }

  /** The union read through its 32-bit signed member I. */
  function IntOf(v: JValue): i32 {
    var u := v.word % 0x1_0000_0000;
    if u < 0x8000_0000 then u else u - 0x1_0000_0000
  }

  /** The union read through its 64-bit members: the object ids and the signed J. */
  function ObjectOf(v: JValue): ObjectId { v.word }
  function LongOf(v: JValue): i64 {
    if v.word < 0x8000_0000_0000_0000 then v.word else v.word - 0x1_0000_0000_0000_0000
  }

  /** JValue(): the void value, whose pointer member is null. */
  function DefaultValue(): (v: JValue)
    ensures v.tag == VoidTag && ObjectOf(v) == 0 && LongOf(v) == 0
  {
    JValue(VoidTag, 0)
  }

  /** JValue(tag): the given tag with a null pointer member. */
  function OfTag(t: Tag): (v: JValue)
    ensures v.tag == t && ObjectOf(v) == 0 && IntOf(v) == 0 && ShortOf(v) == 0 && ByteOf(v) == 0
  {
    JValue(t, 0)
  }

  /**
   * The constructors of the narrow members write only that member's bytes; `stale`
   * stands for what the union held before, whose higher bytes stay as they were.
   */
  function OfByte(b: u8, stale: u64): (v: JValue)
    ensures v.tag == ByteTag && ByteOf(v) == b
    ensures v.word / 0x100 == stale / 0x100
  {
    JValue(ByteTag, b + 0x100 * (stale / 0x100))
  }

  function OfBoolean(z: bool, stale: u64): (v: JValue)
    ensures v.tag == BooleanTag && BooleanOf(v) == z
    ensures v.word / 0x100 == stale / 0x100
  {
    JValue(BooleanTag, (if z then 1 else 0) + 0x100 * (stale / 0x100))
  }

  /** JValue(int16_t, tag = JT_CHAR): also used for JT_SHORT. */
  function OfChar(c: i16, stale: u64, t: Tag := CharTag): (v: JValue)
    ensures v.tag == t && ShortOf(v) == c
    ensures v.word / 0x1_0000 == stale / 0x1_0000
  {
    JValue(t, (if c < 0 then c + 0x1_0000 else c) + 0x1_0000 * (stale / 0x1_0000))
  }

  function OfInt(i: i32, stale: u64): (v: JValue)
    ensures v.tag == IntTag && IntOf(v) == i
    ensures v.word / 0x1_0000_0000 == stale / 0x1_0000_0000
  {
    JValue(IntTag, (if i < 0 then i + 0x1_0000_0000 else i) + 0x1_0000_0000 * (stale / 0x1_0000_0000))
  }

  /** JValue(ObjectId, tag = JT_OBJECT): any of the reference tags. */
  function OfObject(l: ObjectId, t: Tag := ObjectTag): (v: JValue)
    ensures v.tag == t && ObjectOf(v) == l
  {
    JValue(t, l)
  }

  function OfLong(j: i64): (v: JValue)
    ensures v.tag == LongTag && LongOf(v) == j
  {
    JValue(LongTag, if j < 0 then j + 0x1_0000_0000_0000_0000 else j)
  }

  // ---------------------------------------------------------------------------------
  // Equality as written: one byte compared, then a shift by four bits, per unit of width
  // ---------------------------------------------------------------------------------

  function Pow16(n: nat): (r: nat)
    ensures r >= 1
  {
    if n == 0 then 1 else 16 * Pow16(n - 1)
  }

  function Pow256(n: nat): (r: nat)
    ensures r >= 1
  {
    if n == 0 then 1 else 256 * Pow256(n - 1)
  }

  /** What the loop of operator== computes from the two words and the remaining width. */
  function AgreeAsWritten(s1: nat, s2: nat, w: nat): bool
    decreases w
  {
    w == 0 || (s1 % 0x100 == s2 % 0x100 && AgreeAsWritten(s1 / 16, s2 / 16, w - 1))
  }

  /** operator== for a tag of width `w` (the width function itself is not defined here). */
  predicate EqualsAsWritten(a: JValue, b: JValue, w: nat) {
    a.tag == b.tag && AgreeAsWritten(a.word, b.word, w)
  }

  /**
   * The loop of operator==. It compares the low byte and shifts by four bits per step, so
   * for a width w >= 1 it examines exactly the bits 0 to 4w+3 of the word.
   */
  method CompareAsWritten(a: JValue, b: JValue, width: u64) returns (eq: bool)
    ensures eq == EqualsAsWritten(a, b, width)
    ensures eq <==> a.tag == b.tag &&
                    (width == 0 || a.word % Pow16(width + 1) == b.word % Pow16(width + 1))
  {
    AgreeAsWrittenExamines(a.word, b.word, width);
    if a.tag != b.tag {
      return false;
    }
    var w := width;
    var s1, s2 := a.word, b.word;
    while w != 0
      invariant AgreeAsWritten(a.word, b.word, width) == AgreeAsWritten(s1, s2, w)
      decreases w
    {
      if s1 % 0x100 != s2 % 0x100 {
        return false;
      }
      s1, s2 := s1 / 16, s2 / 16;
      w := w - 1;
    }
    return true;
  }

  /** x mod (b*m) splits into the low digit in base b and the rest mod m. */
  lemma ModSplit(x: nat, b: nat, m: nat)
    requires b > 0 && m > 0
    ensures x % (b * m) == x % b + b * ((x / b) % m)
  {
    var q, r := x / b, x % b;
    var hi, lo := q / m, q % m;
    Distribute(b, m, hi, lo);
    MulMonotone(b, lo, m - 1);
    MulMonotone(b, m - 1, m);
    ModUnique(x, b * m, hi, b * lo + r);
  }

  lemma Distribute(b: int, m: int, hi: int, lo: int)
    ensures b * (m * hi + lo) == (b * m) * hi + b * lo
  {
  }

  lemma MulMonotone(b: nat, u: nat, v: nat)
    requires u <= v
    ensures b * u <= b * v
  {
  }

  lemma ModUnique(x: int, d: int, q: int, r: int)
    requires d > 0 && 0 <= r < d && x == d * q + r
    ensures x % d == r && x / d == q
  {
    var q', r' := x / d, x % d;
    assert d * (q' - q) == r - r';
    MultipleMagnitude(d, q' - q);
  }

  /** A nonzero multiple of a positive d is at least d away from zero. */
  lemma MultipleMagnitude(d: int, k: int)
    requires d > 0
    ensures k == 0 || d * k >= d || d * k <= -d
  {
    if k >= 1 {
      assert d * k == d * (k - 1) + d;
      assert d * (k - 1) >= 0;
    } else if k <= -1 {
      assert d * k == d * (k + 1) - d;
      assert d * (k + 1) <= 0;
    }
  }

  /** (x mod (a*b)) mod a == x mod a. */
  lemma ModOfMod(x: nat, a: nat, b: nat)
    requires a > 0 && b > 0
    ensures (x % (a * b)) % a == x % a
  {
    ModSplit(x, a, b);
    var t := (x / a) % b;
    ModUnique(x % a + a * t, a, t, x % a);
  }

  /** The as-written loop compares the words exactly modulo 16^(w+1), i.e. bits 0 to 4w+3. */
  lemma {:induction false} AgreeAsWrittenExamines(x: nat, y: nat, w: nat)
    ensures AgreeAsWritten(x, y, w) <==> (w == 0 || x % Pow16(w + 1) == y % Pow16(w + 1))
  {
    if w == 1 {
      assert Pow16(2) == 256;
    } else if w > 1 {
      AgreeAsWrittenExamines(x / 16, y / 16, w - 1);
      var p := Pow16(w);
      assert Pow16(w + 1) == 16 * p;
      assert p == 16 * Pow16(w - 1);
      ModSplit(x, 16, p);
      ModSplit(y, 16, p);
      ModSplit(x, 16, 16);
      ModSplit(y, 16, 16);
      ModOfMod(x / 16, 16, Pow16(w - 1));
      ModOfMod(y / 16, 16, Pow16(w - 1));
    }
  }

  /** operator== is reflexive, whatever the width. */
  lemma {:induction false} EqualsAsWrittenReflexive(a: JValue, w: nat)
    ensures EqualsAsWritten(a, a, w)
  {
    AgreeAsWrittenExamines(a.word, a.word, w);
  }

  /** Two values whose words differ only above bit 4w+3 compare equal. */
  lemma HighBitsIgnoredAsWritten(a: JValue, b: JValue, w: nat)
    requires a.tag == b.tag && a.word % Pow16(w + 1) == b.word % Pow16(w + 1)
    ensures EqualsAsWritten(a, b, w)
  {
    AgreeAsWrittenExamines(a.word, b.word, w);
  }

  /** For the eight-byte width, two different longs compare equal: 0 and 2^36. */
  lemma AsWrittenLongsCollide()
    ensures OfLong(0) != OfLong(0x10_0000_0000)
    ensures EqualsAsWritten(OfLong(0), OfLong(0x10_0000_0000), 8)
  {
    assert Pow16(9) == 0x10_0000_0000;
    AgreeAsWrittenExamines(0, 0x10_0000_0000, 8);
  }

  /** For the two-byte width, the chars 0 and 0x1000 compare equal. */
  lemma AsWrittenCharsCollide()
    ensures OfChar(0, 0) != OfChar(0x1000, 0)
    ensures EqualsAsWritten(OfChar(0, 0), OfChar(0x1000, 0), 2)
  {
    assert Pow16(3) == 0x1000;
    AgreeAsWrittenExamines(0, 0x1000, 2);
  }

  // ---------------------------------------------------------------------------------
  // Equality as intended: one byte compared, then a shift by eight bits, per byte of width
  // ---------------------------------------------------------------------------------

  function AgreeBytewise(s1: nat, s2: nat, w: nat): bool
    decreases w
  {
    w == 0 || (s1 % 0x100 == s2 % 0x100 && AgreeBytewise(s1 / 0x100, s2 / 0x100, w - 1))
  }

  predicate ValueEquals(a: JValue, b: JValue, w: nat) {
    a.tag == b.tag && AgreeBytewise(a.word, b.word, w)
  }

  /** The byte-wise comparison over the tag's width. */
  method Compare(a: JValue, b: JValue, width: u64) returns (eq: bool)
    ensures eq == ValueEquals(a, b, width)
    ensures eq <==> a.tag == b.tag && a.word % Pow256(width) == b.word % Pow256(width)
  {
    AgreeBytewiseExamines(a.word, b.word, width);
    if a.tag != b.tag {
      return false;
    }
    var w := width;
    var s1, s2 := a.word, b.word;
    while w != 0
      invariant AgreeBytewise(a.word, b.word, width) == AgreeBytewise(s1, s2, w)
      decreases w
    {
      if s1 % 0x100 != s2 % 0x100 {
        return false;
      }
      s1, s2 := s1 / 0x100, s2 / 0x100;
      w := w - 1;
    }
    return true;
  }

  /** The byte-wise loop compares the words exactly modulo 256^w: the low w bytes. */
  lemma {:induction false} AgreeBytewiseExamines(x: nat, y: nat, w: nat)
    ensures AgreeBytewise(x, y, w) <==> x % Pow256(w) == y % Pow256(w)
  {
    if w > 0 {
      AgreeBytewiseExamines(x / 0x100, y / 0x100, w - 1);
      ModSplit(x, 0x100, Pow256(w - 1));
      ModSplit(y, 0x100, Pow256(w - 1));
    }
  }

  /** With the full eight-byte width, the intended equality is equality of values. */
  lemma ValueEqualsExact(a: JValue, b: JValue)
    ensures ValueEquals(a, b, 8) <==> a == b
  {
    assert Pow256(8) == 0x1_0000_0000_0000_0000;
    AgreeBytewiseExamines(a.word, b.word, 8);
    ModUnique(a.word, 0x1_0000_0000_0000_0000, 0, a.word);
    ModUnique(b.word, 0x1_0000_0000_0000_0000, 0, b.word);
  }

  /** Byte values compare by their byte alone, whatever the union held before. */
  lemma ByteValuesCompareByPayload(b1: u8, b2: u8, stale1: u64, stale2: u64)
    ensures ValueEquals(OfByte(b1, stale1), OfByte(b2, stale2), 1) <==> b1 == b2
  {
    AgreeBytewiseExamines(OfByte(b1, stale1).word, OfByte(b2, stale2).word, 1);
  }

  /** Char values compare by their two bytes alone under the intended equality. */
  lemma CharValuesCompareByPayload(c1: i16, c2: i16, stale1: u64, stale2: u64)
    ensures ValueEquals(OfChar(c1, stale1), OfChar(c2, stale2), 2) <==> c1 == c2
  {
    assert Pow256(2) == 0x1_0000;
    AgreeBytewiseExamines(OfChar(c1, stale1).word, OfChar(c2, stale2).word, 2);
  }

  // ---------------------------------------------------------------------------------
  // Records and the modifier union
  // ---------------------------------------------------------------------------------

  datatype ClassInfo = ClassInfo(
    refTypeTag: u8, typeId: RefTypeId, descriptor: string, genericSignature: string, status: u32)

  datatype MethodInfo = MethodInfo(
    methodId: MethodId, name: string, signature: string, genericSignature: string, flags: u32)

  datatype FieldInfo = FieldInfo(
    fieldId: FieldId, name: string, descriptor: string, genericSignature: string, flags: u32,
    value: JValue)

  datatype Location = Location(typeTag: TypeTag, classId: RefTypeId, methodId: MethodId, dexPc: u64)

  /** The modifier union: each variant is one arm of the C union, which starts with its kind. */
  datatype EventMod =
    | CountMod(count: i32)
    | ConditionalMod(exprId: u32)
    | ThreadOnlyMod(threadId: ObjectId)
    | ClassOnlyMod(refTypeId: RefTypeId)
    | ClassMatchMod(classPattern: string)
    | ClassExcludeMod(classPattern: string)
    | LocationOnlyMod(loc: Location)
    | ExceptionOnlyMod(caught: u8, uncaught: u8, refTypeId: RefTypeId)
    | FieldOnlyMod(refTypeId: RefTypeId, fieldId: FieldId)
    | StepMod(threadId: ObjectId, size: i32, depth: i32)
    | InstanceOnlyMod(objectId: ObjectId)

  /** The leading modKind field, readable whatever arm is active. */
  function KindOfMod(m: EventMod): (k: ModKind)
    ensures k != SourceNameMatch
  {
    match m
    case CountMod(_) => Count
    case ConditionalMod(_) => Conditional
    case ThreadOnlyMod(_) => ThreadOnly
    case ClassOnlyMod(_) => ClassOnly
    case ClassMatchMod(_) => ClassMatch
    case ClassExcludeMod(_) => ClassExclude
    case LocationOnlyMod(_) => LocationOnly
    case ExceptionOnlyMod(_, _, _) => ExceptionOnly
    case FieldOnlyMod(_, _) => FieldOnly
    case StepMod(_, _, _) => Step
    case InstanceOnlyMod(_) => InstanceOnly
  }

  /** The kind determines the active arm, and the arm determines the kind. */
  lemma KindDeterminesArm(m1: EventMod, m2: EventMod)
    ensures KindOfMod(m1) == KindOfMod(m2) <==>
      (m1.CountMod? && m2.CountMod?) || (m1.ConditionalMod? && m2.ConditionalMod?) ||
      (m1.ThreadOnlyMod? && m2.ThreadOnlyMod?) || (m1.ClassOnlyMod? && m2.ClassOnlyMod?) ||
      (m1.ClassMatchMod? && m2.ClassMatchMod?) || (m1.ClassExcludeMod? && m2.ClassExcludeMod?) ||
      (m1.LocationOnlyMod? && m2.LocationOnlyMod?) ||
      (m1.ExceptionOnlyMod? && m2.ExceptionOnlyMod?) ||
      (m1.FieldOnlyMod? && m2.FieldOnlyMod?) || (m1.StepMod? && m2.StepMod?) ||
      (m1.InstanceOnlyMod? && m2.InstanceOnlyMod?)
  {
  }
}
