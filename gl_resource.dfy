/** The move-only handle gl_v1::Resource: one GL name, released through the
    deleter its type is bound to whenever the value is reset or destroyed. */
module GlResource {
  import opened GlTypes
  import opened GlContext

  /** The call the deleter bound to `k` makes to release `name`: the handle by
      value for Deleter1, a count of 1 and a one-element array for DeleterN. */
  function ReleaseCall(k: ResourceType, name: UInt32): (c: Call)
    ensures Released([c]) == [name]
    ensures ShapeOf(k) == Deleter1 ==> c == (if k == Shader then Call.DeleteShader(name) else Call.DeleteProgram(name))
    ensures ShapeOf(k) == DeleterN ==> c == (if k == Buffer then Call.DeleteBuffers(1, [name]) else Call.DeleteVertexArrays(1, [name]))
  {
    match k
    case Shader => Call.DeleteShader(name)
    case Program => Call.DeleteProgram(name)
    case Buffer => Call.DeleteBuffers(1, [name])
    case VertexArray => Call.DeleteVertexArrays(1, [name])
  }

  /** The names handed to delete calls in a trace, in order. */
  function Released(t: seq<Call>): seq<UInt32> {
    if t == [] then []
    else
      var names := match t[0]
        case DeleteShader(s) => [s]
        case DeleteProgram(p) => [p]
        case DeleteBuffers(_, b) => b
        case DeleteVertexArrays(_, a) => a
        case _ => [];
      names + Released(t[1..])
  }

  lemma {:induction false} ReleasedAppend(a: seq<Call>, b: seq<Call>)
    ensures Released(a + b) == Released(a) + Released(b)
  {
    if a == [] {
      assert a + b == b;
    } else {
      assert (a + b)[1..] == a[1..] + b;
      ReleasedAppend(a[1..], b);
    }
  }

  /** Releasing through the deleter adds exactly `name` to the released names. */
  lemma ReleasedSnoc(t: seq<Call>, k: ResourceType, name: UInt32)
    ensures Released(t + [ReleaseCall(k, name)]) == Released(t) + [name]
  {
    ReleasedAppend(t, [ReleaseCall(k, name)]);
  }

  class Resource {
    /** The instantiation, which fixes the deleter. */
    const kind: ResourceType
    /** The one piece of state: the GL name held, 0 when nothing is held. */
    var name: UInt32

    /** Resource(): holds nothing. */
    constructor Empty(kind: ResourceType)
      ensures this.kind == kind && name == 0
    {
      this.kind := kind;
      name := 0;
    }

    /** explicit Resource(GLuint name): takes the name as given, releasing nothing. */
    constructor (kind: ResourceType, name: UInt32)
      ensures this.kind == kind && this.name == name
    {
      this.kind := kind;
      this.name := name;
    }

    /** Resource(Resource &&that): takes over that's name and empties that,
        releasing nothing. */
    constructor Move(that: Resource)
      modifies that
      ensures kind == that.kind && name == old(that.name) && that.name == 0
    {
      kind := that.kind;
      name := that.name;
      that.name := 0;
    }

    /** reset(new_name = 0): release the current name, whatever it is (0 included),
        then hold new_name. */
    method Reset(gl: Context, newName: UInt32 := 0)
      modifies this, gl
      ensures name == newName
      ensures gl.trace == old(gl.trace) + [ReleaseCall(kind, old(name))]
      ensures Released(gl.trace) == Released(old(gl.trace)) + [old(name)]
    {
      ReleasedSnoc(gl.trace, kind, name);
      gl.Issue(ReleaseCall(kind, name));
      name := newName;
    }

    /** operator=(Resource &&that): unless that is this object, release the current
        name, take over that's name, and empty that. */
    method MoveAssign(that: Resource, gl: Context)
      requires that.kind == kind
      modifies this, that, gl
      ensures that == this ==> name == old(name) && gl.trace == old(gl.trace)
      ensures that != this ==>
        && name == old(that.name) && that.name == 0
        && gl.trace == old(gl.trace) + [ReleaseCall(kind, old(name))]
        && Released(gl.trace) == Released(old(gl.trace)) + [old(name)]
    {
      if this != that {
        Reset(gl, that.name);
        that.name := 0;
      }
    }

    /** ~Resource(): reset(), so exactly one release of the name held, 0 included. */
    method Destroy(gl: Context)
      modifies this, gl
      ensures name == 0
      ensures gl.trace == old(gl.trace) + [ReleaseCall(kind, old(name))]
      ensures Released(gl.trace) == Released(old(gl.trace)) + [old(name)]
    {
      Reset(gl);
    }
  }
}
