/** The shape inference of the wrapper: type tags from element types, byte sizes
    of uploads, attribute layout from a pointer to a vertex member, and masks. */
module GlShapes {
  import opened GlTypes

  /** The seven element types TypeOf is specialised for. */
  datatype Scalar = GLbyte | GLfloat | GLint | GLshort | GLubyte | GLuint | GLushort

  /** How the bits of a component are read. */
  datatype Representation = SignedInteger | UnsignedInteger | FloatingPoint | FixedPoint | Packed

  /** Width in bits and representation of the element types, as the GL data-type
      table (table 2.2 of the OpenGL ES 3.0 specification) defines them. */
  function ScalarBits(s: Scalar): nat {
    match s
    case GLbyte => 8
    case GLubyte => 8
    case GLshort => 16
    case GLushort => 16
    case GLint => 32
    case GLuint => 32
    case GLfloat => 32
  }

  function ScalarRepresentation(s: Scalar): Representation {
    match s
    case GLbyte => SignedInteger
    case GLshort => SignedInteger
    case GLint => SignedInteger
    case GLubyte => UnsignedInteger
    case GLushort => UnsignedInteger
    case GLuint => UnsignedInteger
    case GLfloat => FloatingPoint
  }

  /** sizeof of an element type, in bytes. */
  function ScalarBytes(s: Scalar): nat {
    ScalarBits(s) / 8
  }

  /** What a type tag tells the driver about each component. */
  function TypeBits(t: Type): nat {
    match t
    case Byte => 8
    case UnsignedByte => 8
    case Short => 16
    case UnsignedShort => 16
    case HalfFloat => 16
    case Int => 32
    case UnsignedInt => 32
    case Float => 32
    case Fixed => 32
    case Int2101010Rev => 32
    case UnsignedInt2101010Rev => 32
  }

  function TypeRepresentation(t: Type): Representation {
    match t
    case Byte => SignedInteger
    case Short => SignedInteger
    case Int => SignedInteger
    case UnsignedByte => UnsignedInteger
    case UnsignedShort => UnsignedInteger
    case UnsignedInt => UnsignedInteger
    case Float => FloatingPoint
    case HalfFloat => FloatingPoint
    case Fixed => FixedPoint
    case Int2101010Rev => Packed
    case UnsignedInt2101010Rev => Packed
  }

  /** TypeOf<T>: the tag of an element type, which describes components of
      exactly that width and representation. */
  function TypeOf(s: Scalar): (t: Type)
    ensures TypeBits(t) == ScalarBits(s)
    ensures TypeRepresentation(t) == ScalarRepresentation(s)
  {
    match s
    case GLbyte => Byte
    case GLfloat => Float
    case GLint => Int
    case GLshort => Short
    case GLubyte => UnsignedByte
    case GLuint => UnsignedInt
    case GLushort => UnsignedShort
  }

  /** Distinct element types get distinct GL enumerator values. */
  lemma TypeOfInjective(a: Scalar, b: Scalar)
    requires TypeOf(a).Value() == TypeOf(b).Value()
    ensures a == b
  {
  }

  // Masks

  /** Whether bit `i` of a mask is set. */
  predicate IsSet(m: Mask, i: nat)
    requires i < 32
  {
    (m >> (i as bv5)) & 1 == 1
  }

  /** The positions of the bits set in a mask. */
  function Flags(m: Mask): set<nat> {
    set i: nat | i < 32 && IsSet(m, i)
  }

  lemma OrBit(a: Mask, b: Mask, i: nat)
    requires i < 32
    ensures IsSet(a | b, i) <==> IsSet(a, i) || IsSet(b, i)
  {
    var j := i as bv5;
    assert (a | b) >> j == (a >> j) | (b >> j);
  }

  /** operator|(Mask, Mask): the mask whose flags are those of either operand. */
  function Or(lhs: Mask, rhs: Mask): (m: Mask)
    ensures Flags(m) == Flags(lhs) + Flags(rhs)
  {
    forall i: nat | i < 32
      ensures IsSet(lhs | rhs, i) <==> IsSet(lhs, i) || IsSet(rhs, i)
    {
      OrBit(lhs, rhs, i);
    }
    lhs | rhs
  }

  /** Combining masks is commutative, associative and idempotent. */
  lemma OrLaws(a: Mask, b: Mask, c: Mask)
    ensures Or(a, b) == Or(b, a)
    ensures Or(Or(a, b), c) == Or(a, Or(b, c))
    ensures Or(a, a) == a
  {
  }

  /** Each enumerator of Mask is a single flag, and no two share it. */
  lemma MaskBitsSingle(x: MaskBit, y: MaskBit)
    ensures |Flags(x.Value())| == 1
    ensures x != y ==> Flags(x.Value()) * Flags(y.Value()) == {}
  {
    assert Flags(ColorBufferBit.Value()) == {14} by {
      forall i: nat | i < 32 ensures IsSet(ColorBufferBit.Value(), i) <==> i == 14 { }
    }
    assert Flags(DepthBufferBit.Value()) == {8} by {
      forall i: nat | i < 32 ensures IsSet(DepthBufferBit.Value(), i) <==> i == 8 { }
    }
    assert Flags(StencilBufferBit.Value()) == {10} by {
      forall i: nat | i < 32 ensures IsSet(StencilBufferBit.Value(), i) <==> i == 10 { }
    }
  }

  // Buffer uploads

  /** The object representation of a sequence: the bytes of each element in turn. */
  function Bytes<T>(data: seq<T>, repr: T -> seq<bv8>): seq<bv8> {
    if data == [] then [] else repr(data[0]) + Bytes(data[1..], repr)
  }

  lemma {:induction false} BytesLength<T>(data: seq<T>, repr: T -> seq<bv8>, size: nat)
    requires forall x :: |repr(x)| == size
    ensures |Bytes(data, repr)| == size * |data|
  {
    if data != [] {
      BytesLength(data[1..], repr, size);
      assert size * |data| == size + size * (|data| - 1);
    }
  }

  /** The arguments of the untyped BufferData: a byte size and the bytes the data pointer designates. */
  datatype Upload = Upload(size: Int32, data: seq<bv8>)

  /** The typed BufferData overloads: the size is sizeof(T) times the element count,
      the number of bytes the array occupies, computed in the 32-bit size_t and
      converted to GLsizeiptr. `repr` gives the sizeof(T) bytes of an element. Below
      2^31 bytes the size passed is that byte count; from 2^31 bytes to 2^32 it is
      negative; it is always congruent to the byte count modulo 2^32. */
  function ElementsUpload<T(!new)>(data: seq<T>, sizeofT: nat, repr: T -> seq<bv8>): (u: Upload)
    requires forall x :: |repr(x)| == sizeofT
    ensures u.data == Bytes(data, repr) && |u.data| == sizeofT * |data|
    ensures |u.data| < 0x8000_0000 ==> u.size == |u.data|
    ensures 0x8000_0000 <= |u.data| < 0x1_0000_0000 ==> u.size == |u.data| - 0x1_0000_0000
    ensures (|u.data| - u.size) % 0x1_0000_0000 == 0
  {
    BytesLength(data, repr, sizeofT);
    Upload(SizeToInt32(sizeofT * |data|), Bytes(data, repr))
  }

  // Attribute layout

  /** A member of a vertex record: a vec<S, N> at a byte offset. */
  datatype Member = Member(component: Scalar, count: nat, offset: nat)

  /** A vertex record type: sizeof(Vertex) and its members. */
  datatype Record = Record(size: nat, members: seq<Member>)

  /** What the language guarantees of a record: every member lies inside it. */
  ghost predicate WellFormed(v: Record) {
    forall m | m in v.members :: m.offset + m.count * ScalarBytes(m.component) <= v.size
  }

  /** The arguments of the untyped VertexAttribPointer, apart from the location. */
  datatype Attrib = Attrib(size: Int32, componentType: Type, normalized: bool, stride: Int32, offset: nat)

  /** The member-pointer VertexAttribPointer: N components of TypeOf(S), stride
      sizeof(Vertex), the member's offset as pointer; normalized defaults to false.
      N and sizeof(Vertex) are size_t values converted to GLint and GLsizei, so they
      wrap modulo 2^32 once they reach 2^31. For a record below 2^31 bytes nothing
      wraps and, for every vertex, the components the driver reads are exactly the
      member's bytes; from 2^31 bytes on the stride passed is negative. */
  function MemberAttrib(vertex: Record, member: nat, normalized: bool := false): (a: Attrib)
    requires WellFormed(vertex) && member < |vertex.members|
    ensures var m := vertex.members[member];
      && a.normalized == normalized && a.offset == m.offset
      && TypeBits(a.componentType) == ScalarBits(m.component)
      && TypeRepresentation(a.componentType) == ScalarRepresentation(m.component)
      && (m.count - a.size) % 0x1_0000_0000 == 0
      && (vertex.size - a.stride) % 0x1_0000_0000 == 0
      && (0x8000_0000 <= vertex.size < 0x1_0000_0000 ==> a.stride < 0)
      && (vertex.size < 0x8000_0000 ==>
            && a.size == m.count && a.stride == vertex.size
            && a.offset + a.size * (TypeBits(a.componentType) / 8) <= a.stride)
  {
    var m := vertex.members[member];
    assert m in vertex.members;
    assert m.count <= m.count * ScalarBytes(m.component);
    Attrib(SizeToInt32(m.count), TypeOf(m.component), normalized, SizeToInt32(vertex.size), m.offset)
  }
}
