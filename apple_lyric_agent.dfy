/**
 * Apple Music's `LyricAgent`: a singer of a lyric line, with its name-type
 * codes, their labels, a numeric agent type, the type's label and an id.
 * The two code tables are looked up by first match; `equals` is structural,
 * arrays compared by content, and `hashCode` folds the field hashes with 31
 * in 32-bit arithmetic.
 */
module AppleLyricAgent {
  import opened Wrappers
  import opened KotlinText

  // ---------------------------------------------------------------------
  // The two code tables

  datatype NameType = NameNone | Full | Family | Given | Alias | NameOther {
    function Code(): (c: int)
      ensures 0 <= c <= 5
    {
      match this
      case NameNone => 0
      case Full => 1
      case Family => 2
      case Given => 3
      case Alias => 4
      case NameOther => 5
    }

    function TypeName(): string {
      match this
      case NameNone => "None"
      case Full => "Full"
      case Family => "Family"
      case Given => "Given"
      case Alias => "Alias"
      case NameOther => "Other"
    }
  }

  datatype AgentType = TypeNone | Person | Character | Group | Organization | TypeOther {
    function Code(): (c: int)
      ensures 0 <= c <= 5
    {
      match this
      case TypeNone => 0
      case Person => 1
      case Character => 2
      case Group => 3
      case Organization => 4
      case TypeOther => 5
    }

    function TypeName(): string {
      match this
      case TypeNone => "None"
      case Person => "Person"
      case Character => "Character"
      case Group => "Group"
      case Organization => "Organization"
      case TypeOther => "Other"
    }
  }

  /** `NameType.entries`, in declaration order. */
  const NAME_TYPES: seq<NameType> := [NameNone, Full, Family, Given, Alias, NameOther]

  /** `Type.entries`, in declaration order. */
  const AGENT_TYPES: seq<AgentType> := [TypeNone, Person, Character, Group, Organization, TypeOther]

  /** `entries.firstOrNull { it.type == code }`, where `codeOf` reads an entry's code. */
  function FirstWithCode<T>(entries: seq<T>, codeOf: T -> int, code: int): (r: Option<T>)
    ensures r.Some? ==> r.value in entries && codeOf(r.value) == code
    ensures r.None? ==> forall t :: t in entries ==> codeOf(t) != code
  {
    if entries == [] then None
    else if codeOf(entries[0]) == code then Some(entries[0])
    else FirstWithCode(entries[1..], codeOf, code)
  }

  /** `getNameTypeName(nameType)`: the name type carrying the code, `null` for any code outside 0..5. */
  function GetNameTypeName(code: int): (r: Option<NameType>)
    ensures r.Some? ==> r.value.Code() == code
    ensures r.None? <==> !(0 <= code <= 5)
  {
    assert 0 <= code <= 5 ==> NAME_TYPES[code] in NAME_TYPES && NAME_TYPES[code].Code() == code;
    FirstWithCode(NAME_TYPES, (t: NameType) => t.Code(), code)
  }

  /** `getType(type)`: the agent type carrying the code, `null` for any code outside 0..5. */
  function GetType(code: int): (r: Option<AgentType>)
    ensures r.Some? ==> r.value.Code() == code
    ensures r.None? <==> !(0 <= code <= 5)
  {
    assert 0 <= code <= 5 ==> AGENT_TYPES[code] in AGENT_TYPES && AGENT_TYPES[code].Code() == code;
    FirstWithCode(AGENT_TYPES, (t: AgentType) => t.Code(), code)
  }

  /** Every name type is found again from its own code. */
  lemma NameTypeRoundTrip(t: NameType)
    ensures GetNameTypeName(t.Code()) == Some(t)
  {
    var r := GetNameTypeName(t.Code());
    assert r.Some?;
    match t
    case NameNone =>
    case Full =>
    case Family =>
    case Given =>
    case Alias =>
    case NameOther =>
  }

  /** Every agent type is found again from its own code. */
  lemma AgentTypeRoundTrip(t: AgentType)
    ensures GetType(t.Code()) == Some(t)
  {
    var r := GetType(t.Code());
    assert r.Some?;
    match t
    case TypeNone =>
    case Person =>
    case Character =>
    case Group =>
    case Organization =>
    case TypeOther =>
  }

  /** `getNameTypeName(code)?.typeName ?: ""` */
  function NameTypeLabel(code: int): string {
    match GetNameTypeName(code)
    case Some(t) => t.TypeName()
    case None => ""
  }

  /** The label is empty exactly for an unknown code: every known name type has a non-empty label. */
  lemma NameTypeLabelEmpty(code: int)
    ensures NameTypeLabel(code) == "" <==> !(0 <= code <= 5)
  {
    var r := GetNameTypeName(code);
    if r.Some? {
      match r.value
      case NameNone =>
      case Full =>
      case Family =>
      case Given =>
      case Alias =>
      case NameOther =>
    }
  }

  /**
   * `getNameTypesNames(nameTypes)`: one label per code, in order, with ""
   * standing for a code that names no name type.
   */
  method GetNameTypesNames(nameTypes: seq<int>) returns (names: seq<string>)
    ensures |names| == |nameTypes|
    ensures forall i :: 0 <= i < |nameTypes| ==> names[i] == NameTypeLabel(nameTypes[i])
    ensures forall i :: 0 <= i < |nameTypes| ==> (names[i] == "" <==> !(0 <= nameTypes[i] <= 5))
  {
    names := [];
    var k := 0;
    while k < |nameTypes|
      invariant 0 <= k <= |nameTypes|
      invariant |names| == k
      invariant forall i :: 0 <= i < k ==> names[i] == NameTypeLabel(nameTypes[i])
    {
      names := names + [NameTypeLabel(nameTypes[k])];
      k := k + 1;
    }
    forall i | 0 <= i < |nameTypes|
      ensures names[i] == "" <==> !(0 <= nameTypes[i] <= 5)
    {
      NameTypeLabelEmpty(nameTypes[i]);
    }
  }

  // ---------------------------------------------------------------------
  // The agent, its equality and its hash

  /** `typeCode` holds the `type: Long` field. */
  datatype LyricAgent = LyricAgent(
    nameTypes: seq<int>,
    nameTypeNames: seq<string>,
    typeCode: int,
    typeName: Option<string>,
    id: Option<string>)

  /** `equals`: the same type code, the same arrays element by element, the same type name and id. */
  function Equals(a: LyricAgent, b: LyricAgent): (r: bool)
    ensures r <==> a == b
  {
    && a.typeCode == b.typeCode
    && a.nameTypes == b.nameTypes
    && a.nameTypeNames == b.nameTypeNames
    && a.typeName == b.typeName
    && a.id == b.id
  }

  const TWO_32: int := 0x1_0000_0000
  const TWO_64: int := 0x1_0000_0000_0000_0000

  /** Bitwise exclusive or of two non-negative integers, one binary digit at a time. */
  function Xor(a: nat, b: nat): nat
    decreases a + b
  {
    if a == 0 && b == 0 then 0 else 2 * Xor(a / 2, b / 2) + (a % 2 + b % 2) % 2
  }

  lemma {:induction false} XorZero(a: nat)
    ensures Xor(a, 0) == a
    decreases a
  {
    if a != 0 {
      XorZero(a / 2);
    }
  }

  /** `Long.hashCode()`: the low and the high 32 bits of the two's-complement value, exclusive-or'ed, read as an `Int`. */
  function LongHash(v: int): (h: int)
    ensures IsInt(h)
  {
    var u := v % TWO_64;
    WrapInt(Xor(u % TWO_32, u / TWO_32))
  }

  /** A type code that fits in a non-negative `Int` hashes to itself. */
  lemma LongHashSmall(v: int)
    requires 0 <= v <= INT_MAX
    ensures LongHash(v) == v
  {
    assert v % TWO_64 == v;
    assert v % TWO_32 == v && v / TWO_32 == 0;
    XorZero(v);
  }

  lemma {:induction false} XorSelf(a: nat)
    ensures Xor(a, a) == 0
    decreases a
  {
    if a != 0 {
      XorSelf(a / 2);
    }
  }

  /** `String.hashCode()`: `31 * h + c` over the characters, in `Int` arithmetic. */
  function StringHash(s: string): (h: int)
    ensures IsInt(h)
  {
    if s == [] then 0 else WrapInt(31 * StringHash(s[..|s| - 1]) + s[|s| - 1] as int)
  }

  /** `IntArray.contentHashCode()`: `31 * h + e` from 1. */
  function IntArrayHash(s: seq<int>): (h: int)
    ensures IsInt(h)
  {
    if s == [] then 1 else WrapInt(31 * IntArrayHash(s[..|s| - 1]) + s[|s| - 1])
  }

  /** `Array<String>.contentHashCode()`: `31 * h + e.hashCode()` from 1. */
  function StringArrayHash(s: seq<string>): (h: int)
    ensures IsInt(h)
  {
    if s == [] then 1 else WrapInt(31 * StringArrayHash(s[..|s| - 1]) + StringHash(s[|s| - 1]))
  }

  /** `s?.hashCode() ?: 0` */
  function OptionalStringHash(s: Option<string>): (h: int)
    ensures IsInt(h)
  {
    match s
    case None => 0
    case Some(t) => StringHash(t)
  }

  /**
   * The hash in closed form: the five field hashes as the coefficients of a
   * polynomial in 31, reduced once into `Int`.
   */
  function AgentHash(a: LyricAgent): int {
    WrapInt(923521 * LongHash(a.typeCode)
            + 29791 * IntArrayHash(a.nameTypes)
            + 961 * StringArrayHash(a.nameTypeNames)
            + 31 * OptionalStringHash(a.typeName)
            + OptionalStringHash(a.id))
  }

  /** Two integers that differ by a multiple of 2^32 wrap to the same `Int`. */
  lemma WrapIntCongruent(x: int, y: int)
    requires (x - y) % TWO_32 == 0
    ensures WrapInt(x) == WrapInt(y)
  {
    var q := (x - y) / TWO_32;
    assert x - INT_MIN == (y - INT_MIN) + q * TWO_32;
    ModShift(y - INT_MIN, q);
  }

  lemma ModShift(a: int, q: int)
    ensures (a + q * TWO_32) % TWO_32 == a % TWO_32
  {
  }

  /** Reducing the running value before the next `31 * h + e` step does not change the result. */
  lemma WrapIntStep(x: int, e: int)
    ensures WrapInt(31 * WrapInt(x) + e) == WrapInt(31 * x + e)
  {
    var w := WrapInt(x);
    var k := (w - x) / TWO_32;
    assert w == x + k * TWO_32;
    assert 31 * w + e - (31 * x + e) == (31 * k) * TWO_32;
    WrapIntCongruent(31 * w + e, 31 * x + e);
  }

  /**
   * `hashCode()`: the running `result` is multiplied by 31 and the next
   * field's hash added, in `Int` arithmetic; the value is the closed form.
   */
  method HashCode(agent: LyricAgent) returns (result: int)
    ensures IsInt(result)
    ensures result == AgentHash(agent)
  {
    var h0 := LongHash(agent.typeCode);
    var h1 := IntArrayHash(agent.nameTypes);
    var h2 := StringArrayHash(agent.nameTypeNames);
    var h3 := OptionalStringHash(agent.typeName);
    var h4 := OptionalStringHash(agent.id);
    result := h0;
    result := WrapInt(31 * result + h1);
    result := WrapInt(31 * result + h2);
    result := WrapInt(31 * result + h3);
    result := WrapInt(31 * result + h4);
    HornerWrap(h0, h1, h2, h3, h4);
  }

  /** Reducing after each of the four `31 * result + h` steps gives the closed form reduced once. */
  lemma HornerWrap(h0: int, h1: int, h2: int, h3: int, h4: int)
    ensures WrapInt(31 * WrapInt(31 * WrapInt(31 * WrapInt(31 * h0 + h1) + h2) + h3) + h4)
         == WrapInt(923521 * h0 + 29791 * h1 + 961 * h2 + 31 * h3 + h4)
  {
    var c1 := 31 * h0 + h1;
    var c2 := 31 * c1 + h2;
    var c3 := 31 * c2 + h3;
    WrapIntStep(c1, h2);
    WrapIntStep(c2, h3);
    WrapIntStep(c3, h4);
    assert 31 * c3 + h4 == 923521 * h0 + 29791 * h1 + 961 * h2 + 31 * h3 + h4;
  }

  /** Equal agents, in the sense of `equals`, have the same hash. */
  lemma EqualsConsistentWithHash(a: LyricAgent, b: LyricAgent)
    requires Equals(a, b)
    ensures AgentHash(a) == AgentHash(b)
  {
  }
}
