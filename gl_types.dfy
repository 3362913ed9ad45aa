/** The declarations of the gl_v1 wrapper: the integer types of the GL binding,
    the enumerations with their OpenGL ES 3.0 values, and the release call each
    resource type is bound to. */
module GlTypes {

  /** GLuint, GLenum: 32-bit unsigned. */
  type UInt32 = x: int | 0 <= x < 0x1_0000_0000
  /** GLint, GLsizei and (on the 32-bit WebAssembly target) GLsizeiptr: 32-bit signed. */
  type Int32 = x: int | -0x8000_0000 <= x < 0x8000_0000
  type GLenum = UInt32

  /** The conversion of a size_t value of the 32-bit target (strlen, sizeof, a
      template count) to GLint, GLsizei or GLsizeiptr: the size_t value is the
      count modulo 2^32, and the signed conversion wraps modulo 2^32. */
  function SizeToInt32(n: nat): (r: Int32)
    ensures n < 0x8000_0000 ==> r == n
    ensures 0x8000_0000 <= n < 0x1_0000_0000 ==> r == n - 0x1_0000_0000
    ensures (n - r) % 0x1_0000_0000 == 0
  {
    var m := n % 0x1_0000_0000;
    if m < 0x8000_0000 then m else m - 0x1_0000_0000
  }

  // The error codes of section 2.5 ("GL Errors") of the OpenGL ES 3.0 specification.
  const NO_ERROR: GLenum := 0
  const INVALID_ENUM: GLenum := 0x0500
  const INVALID_VALUE: GLenum := 0x0501
  const INVALID_OPERATION: GLenum := 0x0502
  const OUT_OF_MEMORY: GLenum := 0x0505
  const INVALID_FRAMEBUFFER_OPERATION: GLenum := 0x0506

  const GL_FALSE: Int32 := 0
  const GL_TRUE: Int32 := 1
  const COMPILE_STATUS: GLenum := 0x8B81
  const LINK_STATUS: GLenum := 0x8B82

  /** The component type tags of vertex data (enum Type). */
  datatype Type =
    | Byte | Fixed | Float | HalfFloat | Int | Int2101010Rev | Short
    | UnsignedByte | UnsignedInt | UnsignedInt2101010Rev | UnsignedShort
  {
    function Value(): GLenum {
      match this
      case Byte => 0x1400
      case UnsignedByte => 0x1401
      case Short => 0x1402
      case UnsignedShort => 0x1403
      case Int => 0x1404
      case UnsignedInt => 0x1405
      case Float => 0x1406
      case HalfFloat => 0x140B
      case Fixed => 0x140C
      case UnsignedInt2101010Rev => 0x8368
      case Int2101010Rev => 0x8D9F
    }
  }

  datatype ShaderType = VertexShader | FragmentShader {
    function Value(): GLenum {
      match this
      case VertexShader => 0x8B31
      case FragmentShader => 0x8B30
    }
  }

  datatype Target =
    | ArrayBuffer | CopyReadBuffer | CopyWriteBuffer | ElementArrayBuffer
    | PixelPackBuffer | PixelUnpackBuffer | TransformFeedbackBuffer | UniformBuffer
  {
    function Value(): GLenum {
      match this
      case ArrayBuffer => 0x8892
      case ElementArrayBuffer => 0x8893
      case PixelPackBuffer => 0x88EB
      case PixelUnpackBuffer => 0x88EC
      case UniformBuffer => 0x8A11
      case TransformFeedbackBuffer => 0x8C8E
      case CopyReadBuffer => 0x8F36
      case CopyWriteBuffer => 0x8F37
    }
  }

  datatype Usage =
    | DynamicCopy | DynamicDraw | DynamicRead | StaticCopy | StaticDraw
    | StaticRead | StreamCopy | StreamDraw | StreamRead
  {
    function Value(): GLenum {
      match this
      case StreamDraw => 0x88E0
      case StreamRead => 0x88E1
      case StreamCopy => 0x88E2
      case StaticDraw => 0x88E4
      case StaticRead => 0x88E5
      case StaticCopy => 0x88E6
      case DynamicDraw => 0x88E8
      case DynamicRead => 0x88E9
      case DynamicCopy => 0x88EA
    }
  }

  datatype Mode = Lines | LineLoop | LineStrip | Points | Triangles | TriangleFan | TriangleStrip {
    function Value(): GLenum {
      match this
      case Points => 0
      case Lines => 1
      case LineLoop => 2
      case LineStrip => 3
      case Triangles => 4
      case TriangleStrip => 5
      case TriangleFan => 6
    }
  }

  datatype Capability =
    | Blend | CullFace | DepthTest | Dither | PolygonOffsetFill | PrimitiveRestartFixedIndex
    | RasterizerDiscard | SampleAlphaToCoverage | SampleCoverage | ScissorTest | StencilTest
  {
    function Value(): GLenum {
      match this
      case CullFace => 0x0B44
      case DepthTest => 0x0B71
      case StencilTest => 0x0B90
      case Dither => 0x0BD0
      case Blend => 0x0BE2
      case ScissorTest => 0x0C11
      case PolygonOffsetFill => 0x8037
      case SampleAlphaToCoverage => 0x809E
      case SampleCoverage => 0x80A0
      case RasterizerDiscard => 0x8C89
      case PrimitiveRestartFixedIndex => 0x8D69
    }
  }

  /** A value of enum Mask: any GLbitfield, since the enumeration has a fixed
      32-bit underlying type and `|` builds values that are not enumerators. */
  type Mask = bv32

  /** The three enumerators of Mask. */
  datatype MaskBit = ColorBufferBit | DepthBufferBit | StencilBufferBit {
    function Value(): Mask {
      match this
      case DepthBufferBit => 0x0000_0100
      case StencilBufferBit => 0x0000_0400
      case ColorBufferBit => 0x0000_4000
    }
  }

  /** The two shapes of GL release calls: one handle by value (glDeleteShader,
      glDeleteProgram) and a count plus an array (glDeleteBuffers, glDeleteVertexArrays). */
  datatype DeleterShape = Deleter1 | DeleterN

  /** The four instantiations of Resource: Shader, Program, Buffer, VertexArray. */
  datatype ResourceType = Shader | Program | Buffer | VertexArray

  /** The deleter shape each instantiation is bound to. */
  function ShapeOf(k: ResourceType): (shape: DeleterShape)
    ensures shape == Deleter1 <==> k == Shader || k == Program
    ensures shape == DeleterN <==> k == Buffer || k == VertexArray
  {
    match k
    case Shader => Deleter1
    case Program => Deleter1
    case Buffer => DeleterN
    case VertexArray => DeleterN
  }
}
