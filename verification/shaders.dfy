/** `Shader` (Shader.h / Shader.cpp): a linked program id with a lazily filled
    cache from uniform name to location, the uniform setters that resolve
    their location through that cache, and the compile/link status check.
    `glGetUniformLocation` is an uninterpreted function of the program id and
    the name. */
module Shaders {
  import opened GL

  // `unsigned int` holds locations: the `GLint` from GL (-1 for an unknown
  // name) goes through `ToUnsigned`.

  datatype Shader = Shader(id: nat, cache: map<string, nat>)

  /** The location returned, the shader afterwards, and the names queried
      from GL during the call. */
  datatype Lookup = Lookup(location: nat, shader: Shader, queried: seq<string>)

  /** `getUniformLocation(name)`: a cache hit answers without GL; a miss asks
      GL once and inserts the answer. */
  function GetUniformLocation(sh: Shader, name: string, glLocation: (nat, string) -> int): (r: Lookup)
    ensures r.shader.id == sh.id
    ensures name in sh.cache ==> r == Lookup(sh.cache[name], sh, [])
    ensures name !in sh.cache ==>
      && r.queried == [name]
      && r.location == ToUnsigned(glLocation(sh.id, name))
      && r.shader.cache.Keys == sh.cache.Keys + {name}
      && (forall n :: n in sh.cache ==> r.shader.cache[n] == sh.cache[n])
    ensures name in r.shader.cache && r.shader.cache[name] == r.location
  {
    if name in sh.cache then Lookup(sh.cache[name], sh, [])
    else
      var location := ToUnsigned(glLocation(sh.id, name));
      Lookup(location, sh.(cache := sh.cache[name := location]), [name])
  }

  /** Looking the same name up again returns the same location, without a
      GL query and without changing the cache. */
  lemma LookupIdempotent(sh: Shader, name: string, glLocation: (nat, string) -> int)
    ensures var first := GetUniformLocation(sh, name, glLocation);
            var second := GetUniformLocation(first.shader, name, glLocation);
      second.location == first.location && second.queried == [] && second.shader == first.shader
  {
  }

  /** `m2` keeps every entry of `m1` with its value. */
  predicate Extends(m1: map<string, nat>, m2: map<string, nat>)
  {
    forall n :: n in m1 ==> n in m2 && m2[n] == m1[n]
  }

  /** Trace of a run of lookups: the locations returned, in order, and the
      shader afterwards. */
  datatype Run = Run(locations: seq<nat>, shader: Shader, queried: seq<string>)

  function LookupAll(sh: Shader, names: seq<string>, glLocation: (nat, string) -> int): (r: Run)
    ensures |r.locations| == |names|
    decreases |names|
  {
    if |names| == 0 then Run([], sh, [])
    else
      var first := GetUniformLocation(sh, names[0], glLocation);
      var rest := LookupAll(first.shader, names[1..], glLocation);
      Run([first.location] + rest.locations, rest.shader, first.queried + rest.queried)
  }

  /** Entries are never overwritten or removed: across any run of lookups
      the cache only grows, every name already cached is answered from the
      cache, and GL is asked at most once per distinct name. */
  lemma {:induction false} LookupRunStable(sh: Shader, names: seq<string>, glLocation: (nat, string) -> int)
    ensures var r := LookupAll(sh, names, glLocation);
      && |r.locations| == |names|
      && Extends(sh.cache, r.shader.cache)
      && (forall k :: 0 <= k < |names| ==> names[k] in r.shader.cache && r.locations[k] == r.shader.cache[names[k]])
      && (forall n :: n in r.queried ==> n !in sh.cache)
      && (forall i, j :: 0 <= i < j < |r.queried| ==> r.queried[i] != r.queried[j])
    decreases |names|
  {
    if |names| > 0 {
      var first := GetUniformLocation(sh, names[0], glLocation);
      LookupRunStable(first.shader, names[1..], glLocation);
      var rest := LookupAll(first.shader, names[1..], glLocation);
      var queried := first.queried + rest.queried;
      forall i, j | 0 <= i < j < |queried|
        ensures queried[i] != queried[j]
      {
        if i < |first.queried| {
          assert rest.queried[j - |first.queried|] in rest.queried;
        }
      }
      forall k | 0 <= k < |names|
        ensures names[k] in rest.shader.cache && LookupAll(sh, names, glLocation).locations[k] == rest.shader.cache[names[k]]
      {
        if k > 0 {
          assert names[k] == names[1..][k - 1];
        }
      }
    }
  }

  /** Consequently two lookups of one name in a run return the same
      location. */
  lemma RepeatedLookupsAgree(sh: Shader, names: seq<string>, glLocation: (nat, string) -> int, i: nat, j: nat)
    requires i < j < |names| && names[i] == names[j]
    ensures LookupAll(sh, names, glLocation).locations[i] == LookupAll(sh, names, glLocation).locations[j]
  {
    LookupRunStable(sh, names, glLocation);
  }

  // ---------------------------------------------------------------------
  // Setters

  /** The values the setters accept; vectors and matrices as their float
      components in glm's memory order. */
  datatype Value =
    | BoolValue(b: bool)
    | IntValue(i: int)
    | FloatValue(f: real)
    | SamplerValue(unit: int)
    | VectorValue(components: seq<real>)     // setVec2/3/4, either overload
    | MatrixValue(dim: nat, entries: seq<real>) // setMat2/3/4

  /** What a setter hands to GL at the location. */
  datatype Payload = Ints(ints: seq<int>) | Floats(floats: seq<real>) | Matrix(dim: nat, transpose: bool, entries: seq<real>)

  /** `glProgramUniform*(program, ...)` writes to a named program;
      `glUniform*` to the program currently in use. */
  datatype Write = ProgramUniform(program: nat, location: nat, payload: Payload) | CurrentProgramUniform(location: nat, payload: Payload)

  function PayloadOf(v: Value): Payload
  {
    match v
    case BoolValue(b) => Ints([if b then 1 else 0])
    case IntValue(i) => Ints([i])
    case FloatValue(f) => Floats([f])
    case SamplerValue(u) => Ints([u])
    case VectorValue(cs) => Floats(cs)
    case MatrixValue(d, es) => Matrix(d, false, es)
  }

  datatype Set = Set(write: Write, shader: Shader, queried: seq<string>)

  /** Any setter: the location comes from `getUniformLocation(name)`;
      `setSampler` writes through the program id, the others to the program
      in use. */
  function SetUniform(sh: Shader, name: string, v: Value, glLocation: (nat, string) -> int): (r: Set)
    ensures var l := GetUniformLocation(sh, name, glLocation);
      && r.shader == l.shader && r.queried == l.queried
      && (v.SamplerValue? <==> r.write.ProgramUniform?)
      && (r.write.ProgramUniform? ==> r.write == ProgramUniform(sh.id, l.location, Ints([v.unit])))
      && (r.write.CurrentProgramUniform? ==> r.write.location == l.location)
  {
    var l := GetUniformLocation(sh, name, glLocation);
    var w := if v.SamplerValue? then ProgramUniform(sh.id, l.location, PayloadOf(v))
             else CurrentProgramUniform(l.location, PayloadOf(v));
    Set(w, l.shader, l.queried)
  }

  /** Each setter hands GL exactly its argument: `setBool` the integer 1 or
      0, `setInt` and `setSampler` the integer, `setFloat` the float, the
      vector setters their components in order, and the matrix setters their
      entries, never transposed. */
  lemma SetterPayloads(sh: Shader, name: string, glLocation: (nat, string) -> int,
                       b: bool, i: int, f: real, u: int, cs: seq<real>, d: nat, es: seq<real>)
    ensures SetUniform(sh, name, BoolValue(b), glLocation).write.payload == Ints([if b then 1 else 0])
    ensures SetUniform(sh, name, IntValue(i), glLocation).write.payload == Ints([i])
    ensures SetUniform(sh, name, FloatValue(f), glLocation).write.payload == Floats([f])
    ensures SetUniform(sh, name, SamplerValue(u), glLocation).write.payload == Ints([u])
    ensures SetUniform(sh, name, VectorValue(cs), glLocation).write.payload == Floats(cs)
    ensures SetUniform(sh, name, MatrixValue(d, es), glLocation).write.payload == Matrix(d, false, es)
  {
  }

  // ---------------------------------------------------------------------
  // checkCompileErrors

  datatype StatusQuery = CompileStatus | LinkStatus

  datatype Check = Check(query: StatusQuery, log: seq<string>)

  const ProgramType: string := "PROGRAM"
  const LogRule: string := "\n -- --------------------------------------------------- -- "

  /** `checkCompileErrors(object, type)`: a `"PROGRAM"` is checked for its
      link status, anything else for its compile status; the info log is
      printed only when the status is a failure. */
  function CheckCompileErrors(obj: nat, kind: string, compiled: nat -> bool, linked: nat -> bool,
                              infoLog: nat -> string): (r: Check)
    ensures r.query == LinkStatus <==> kind == ProgramType
    ensures |r.log| <= 1
    ensures |r.log| == 1 <==> !(if kind == ProgramType then linked(obj) else compiled(obj))
    ensures |r.log| == 1 ==> r.log[0] == LogHeading(r.query) + kind + "\n" + infoLog(obj) + LogRule + "\n"
  {
    var query := if kind != ProgramType then CompileStatus else LinkStatus;
    var ok := if kind != ProgramType then compiled(obj) else linked(obj);
    Check(query, if ok then [] else [LogHeading(query) + kind + "\n" + infoLog(obj) + LogRule + "\n"])
  }

  function LogHeading(query: StatusQuery): string
  {
    match query
    case CompileStatus => "ERROR::SHADER_COMPILATION_ERROR of type: "
    case LinkStatus => "ERROR::PROGRAM_LINKING_ERROR of type: "
  }
}
