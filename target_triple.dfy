/**
 * The target triples that uv can resolve and install for, and what each one means:
 * its platform tag (operating system plus architecture, as used in wheel tags) and
 * the PEP 508 environment-marker values it implies.
 *
 * Operating-system tags follow the manylinux standards (PEP 599 for `manylinux2014`,
 * PEP 600 for `manylinux_2_NN`) and PEP 656 for `musllinux_1_2`.
 */
module PlatformTags {
  import opened Text

  /** The operating-system part of a platform tag (the variants the triples use). */
  datatype Os =
    | Manylinux(major: u16, minor: u16)
    | Musllinux(major: u16, minor: u16)
    | Windows
    | Macos(major: u16, minor: u16)
    | Pyodide(major: u16, minor: u16)

  /** The architecture part of a platform tag (the variants the triples use). */
  datatype Arch = Aarch64 | X86 | X86_64 | Wasm32

  datatype Platform = Platform(os: Os, arch: Arch)

  /** The lower-case machine name of an architecture, as in a wheel tag. */
  function ArchName(a: Arch): string
  {
    match a
    case Aarch64 => "aarch64"
    case X86 => "x86"
    case X86_64 => "x86_64"
    case Wasm32 => "wasm32"
  }
}

module TargetTriples {
  import opened Wrappers
  import opened Text
  import Tags = PlatformTags

  /** The supported target triples: three short aliases, then architecture-vendor-OS triples. */
  datatype TargetTriple =
    | Windows
    | Linux
    | Macos
    | X8664PcWindowsMsvc
    | I686PcWindowsMsvc
    | X8664UnknownLinuxGnu
    | Aarch64AppleDarwin
    | X8664AppleDarwin
    | Aarch64UnknownLinuxGnu
    | Aarch64UnknownLinuxMusl
    | X8664UnknownLinuxMusl
    | X8664Manylinux2014
    | X8664Manylinux217
    | X8664Manylinux228
    | X8664Manylinux231
    | X8664Manylinux232
    | X8664Manylinux233
    | X8664Manylinux234
    | X8664Manylinux235
    | X8664Manylinux236
    | X8664Manylinux237
    | X8664Manylinux238
    | X8664Manylinux239
    | X8664Manylinux240
    | Aarch64Manylinux2014
    | Aarch64Manylinux217
    | Aarch64Manylinux228
    | Aarch64Manylinux231
    | Aarch64Manylinux232
    | Aarch64Manylinux233
    | Aarch64Manylinux234
    | Aarch64Manylinux235
    | Aarch64Manylinux236
    | Aarch64Manylinux237
    | Aarch64Manylinux238
    | Aarch64Manylinux239
    | Aarch64Manylinux240
    | Wasm32Pyodide2024

  /** The text of the minor version: the second piece, or `0` when there is none. */
  function MinorText(parts: seq<string>): string
  {
    if |parts| > 1 then parts[1] else "0"
  }

  /**
   * The macOS deployment target held in `MACOSX_DEPLOYMENT_TARGET`, passed in as
   * `env` (`None` when the variable is unset): the text before the first `.` is the
   * major version, the text between the first and second `.` the minor version
   * (`0` when there is no `.`); anything after a second `.` is ignored. Either part
   * failing to parse as a `u16` gives `None`.
   */
  function MacosDeploymentTarget(env: Option<string>): (r: Option<(u16, u16)>)
    ensures env.None? ==> r.None?
    ensures r.Some? ==> env.Some? && ParseU16(Split(env.value, '.')[0]) == Some(r.value.0)
    ensures r.Some? ==> ParseU16(MinorText(Split(env.value, '.'))) == Some(r.value.1)
    ensures env.Some? ==>
      (r.Some? <==> ParseU16(Split(env.value, '.')[0]).Some? && ParseU16(MinorText(Split(env.value, '.'))).Some?)
  {
    match env
    case None => None
    case Some(version) =>
      var parts := Split(version, '.');
      match ParseU16(parts[0])
      case None => None
      case Some(major) =>
        match ParseU16(MinorText(parts))
        case None => None
        case Some(minor) => Some((major, minor))
  }

  /** The macOS platform tag: the deployment target, or 13.0 when none is available. */
  function MacosOs(env: Option<string>): (os: Tags.Os)
    ensures MacosDeploymentTarget(env).Some? ==>
      os == Tags.Macos(MacosDeploymentTarget(env).value.0, MacosDeploymentTarget(env).value.1)
    ensures MacosDeploymentTarget(env).None? ==> os == Tags.Macos(13, 0)
  {
    var (major, minor) := match MacosDeploymentTarget(env)
      case Some(target) => target
      case None => (13, 0);
    Tags.Macos(major, minor)
  }

  /** The platform tag of a target; `env` is the value of `MACOSX_DEPLOYMENT_TARGET`. */
  function PlatformOf(t: TargetTriple, env: Option<string>): (p: Tags.Platform)
    ensures p.os.Windows? <==> t.Windows? || t.X8664PcWindowsMsvc? || t.I686PcWindowsMsvc?
    ensures p.os.Macos? <==> t.Macos? || t.Aarch64AppleDarwin? || t.X8664AppleDarwin?
    ensures p.os.Musllinux? <==> t.X8664UnknownLinuxMusl? || t.Aarch64UnknownLinuxMusl?
    ensures p.os.Pyodide? <==> t.Wasm32Pyodide2024?
    ensures t == Wasm32Pyodide2024 ==> p.os == Tags.Pyodide(2024, 0)
    ensures p.arch.Wasm32? <==> t.Wasm32Pyodide2024?
    ensures p.arch.X86? <==> t.I686PcWindowsMsvc?
  {
    match t
    case Windows | X8664PcWindowsMsvc => Tags.Platform(Tags.Windows, Tags.X86_64)
    case Linux | X8664UnknownLinuxGnu => Tags.Platform(Tags.Manylinux(2, 28), Tags.X86_64)
    case Macos | Aarch64AppleDarwin => Tags.Platform(MacosOs(env), Tags.Aarch64)
    case I686PcWindowsMsvc => Tags.Platform(Tags.Windows, Tags.X86)
    case X8664AppleDarwin => Tags.Platform(MacosOs(env), Tags.X86_64)
    case Aarch64UnknownLinuxGnu => Tags.Platform(Tags.Manylinux(2, 28), Tags.Aarch64)
    case Aarch64UnknownLinuxMusl => Tags.Platform(Tags.Musllinux(1, 2), Tags.Aarch64)
    case X8664UnknownLinuxMusl => Tags.Platform(Tags.Musllinux(1, 2), Tags.X86_64)
    case X8664Manylinux2014 => Tags.Platform(Tags.Manylinux(2, 17), Tags.X86_64)
    case X8664Manylinux217 => Tags.Platform(Tags.Manylinux(2, 17), Tags.X86_64)
    case X8664Manylinux228 => Tags.Platform(Tags.Manylinux(2, 28), Tags.X86_64)
    case X8664Manylinux231 => Tags.Platform(Tags.Manylinux(2, 31), Tags.X86_64)
    case X8664Manylinux232 => Tags.Platform(Tags.Manylinux(2, 32), Tags.X86_64)
    case X8664Manylinux233 => Tags.Platform(Tags.Manylinux(2, 33), Tags.X86_64)
    case X8664Manylinux234 => Tags.Platform(Tags.Manylinux(2, 34), Tags.X86_64)
    case X8664Manylinux235 => Tags.Platform(Tags.Manylinux(2, 35), Tags.X86_64)
    case X8664Manylinux236 => Tags.Platform(Tags.Manylinux(2, 36), Tags.X86_64)
    case X8664Manylinux237 => Tags.Platform(Tags.Manylinux(2, 37), Tags.X86_64)
    case X8664Manylinux238 => Tags.Platform(Tags.Manylinux(2, 38), Tags.X86_64)
    case X8664Manylinux239 => Tags.Platform(Tags.Manylinux(2, 39), Tags.X86_64)
    case X8664Manylinux240 => Tags.Platform(Tags.Manylinux(2, 40), Tags.X86_64)
    case Aarch64Manylinux2014 => Tags.Platform(Tags.Manylinux(2, 17), Tags.Aarch64)
    case Aarch64Manylinux217 => Tags.Platform(Tags.Manylinux(2, 17), Tags.Aarch64)
    case Aarch64Manylinux228 => Tags.Platform(Tags.Manylinux(2, 28), Tags.Aarch64)
    case Aarch64Manylinux231 => Tags.Platform(Tags.Manylinux(2, 31), Tags.Aarch64)
    case Aarch64Manylinux232 => Tags.Platform(Tags.Manylinux(2, 32), Tags.Aarch64)
    case Aarch64Manylinux233 => Tags.Platform(Tags.Manylinux(2, 33), Tags.Aarch64)
    case Aarch64Manylinux234 => Tags.Platform(Tags.Manylinux(2, 34), Tags.Aarch64)
    case Aarch64Manylinux235 => Tags.Platform(Tags.Manylinux(2, 35), Tags.Aarch64)
    case Aarch64Manylinux236 => Tags.Platform(Tags.Manylinux(2, 36), Tags.Aarch64)
    case Aarch64Manylinux237 => Tags.Platform(Tags.Manylinux(2, 37), Tags.Aarch64)
    case Aarch64Manylinux238 => Tags.Platform(Tags.Manylinux(2, 38), Tags.Aarch64)
    case Aarch64Manylinux239 => Tags.Platform(Tags.Manylinux(2, 39), Tags.Aarch64)
    case Aarch64Manylinux240 => Tags.Platform(Tags.Manylinux(2, 40), Tags.Aarch64)
    case Wasm32Pyodide2024 => Tags.Platform(Tags.Pyodide(2024, 0), Tags.Wasm32)
  }

  /** The `platform_machine` marker value. */
  function PlatformMachine(t: TargetTriple): (machine: string)
    ensures forall env ::
      machine == if t in {Macos, Aarch64AppleDarwin} then "arm64" else Tags.ArchName(PlatformOf(t, env).arch)
  {
    match t
    case Windows | X8664PcWindowsMsvc => "x86_64"
    case Linux | X8664UnknownLinuxGnu => "x86_64"
    case Macos | Aarch64AppleDarwin => "arm64"
    case I686PcWindowsMsvc => "x86"
    case X8664AppleDarwin => "x86_64"
    case Aarch64UnknownLinuxGnu => "aarch64"
    case Aarch64UnknownLinuxMusl => "aarch64"
    case X8664UnknownLinuxMusl => "x86_64"
    case X8664Manylinux2014 => "x86_64"
    case X8664Manylinux217 => "x86_64"
    case X8664Manylinux228 => "x86_64"
    case X8664Manylinux231 => "x86_64"
    case X8664Manylinux232 => "x86_64"
    case X8664Manylinux233 => "x86_64"
    case X8664Manylinux234 => "x86_64"
    case X8664Manylinux235 => "x86_64"
    case X8664Manylinux236 => "x86_64"
    case X8664Manylinux237 => "x86_64"
    case X8664Manylinux238 => "x86_64"
    case X8664Manylinux239 => "x86_64"
    case X8664Manylinux240 => "x86_64"
    case Aarch64Manylinux2014 => "aarch64"
    case Aarch64Manylinux217 => "aarch64"
    case Aarch64Manylinux228 => "aarch64"
    case Aarch64Manylinux231 => "aarch64"
    case Aarch64Manylinux232 => "aarch64"
    case Aarch64Manylinux233 => "aarch64"
    case Aarch64Manylinux234 => "aarch64"
    case Aarch64Manylinux235 => "aarch64"
    case Aarch64Manylinux236 => "aarch64"
    case Aarch64Manylinux237 => "aarch64"
    case Aarch64Manylinux238 => "aarch64"
    case Aarch64Manylinux239 => "aarch64"
    case Aarch64Manylinux240 => "aarch64"
    case Wasm32Pyodide2024 => "wasm32"
  }

  /** The `platform_system` marker value. */
  function PlatformSystem(t: TargetTriple): (system: string)
    ensures forall env :: system == SystemOfOs(PlatformOf(t, env).os)
  {
    match t
    case Windows | X8664PcWindowsMsvc => "Windows"
    case Linux | X8664UnknownLinuxGnu => "Linux"
    case Macos | Aarch64AppleDarwin => "Darwin"
    case I686PcWindowsMsvc => "Windows"
    case X8664AppleDarwin => "Darwin"
    case Aarch64UnknownLinuxGnu => "Linux"
    case Aarch64UnknownLinuxMusl => "Linux"
    case X8664UnknownLinuxMusl => "Linux"
    case X8664Manylinux2014 => "Linux"
    case X8664Manylinux217 => "Linux"
    case X8664Manylinux228 => "Linux"
    case X8664Manylinux231 => "Linux"
    case X8664Manylinux232 => "Linux"
    case X8664Manylinux233 => "Linux"
    case X8664Manylinux234 => "Linux"
    case X8664Manylinux235 => "Linux"
    case X8664Manylinux236 => "Linux"
    case X8664Manylinux237 => "Linux"
    case X8664Manylinux238 => "Linux"
    case X8664Manylinux239 => "Linux"
    case X8664Manylinux240 => "Linux"
    case Aarch64Manylinux2014 => "Linux"
    case Aarch64Manylinux217 => "Linux"
    case Aarch64Manylinux228 => "Linux"
    case Aarch64Manylinux231 => "Linux"
    case Aarch64Manylinux232 => "Linux"
    case Aarch64Manylinux233 => "Linux"
    case Aarch64Manylinux234 => "Linux"
    case Aarch64Manylinux235 => "Linux"
    case Aarch64Manylinux236 => "Linux"
    case Aarch64Manylinux237 => "Linux"
    case Aarch64Manylinux238 => "Linux"
    case Aarch64Manylinux239 => "Linux"
    case Aarch64Manylinux240 => "Linux"
    case Wasm32Pyodide2024 => "Emscripten"
  }

  /** The `platform_version` marker value (Emscripten reports `#1`). */
  function PlatformVersion(t: TargetTriple): (version: string)
    ensures version == if t == Wasm32Pyodide2024 then "#1" else ""
  {
    match t
    case Windows | X8664PcWindowsMsvc => ""
    case Linux | X8664UnknownLinuxGnu => ""
    case Macos | Aarch64AppleDarwin => ""
    case I686PcWindowsMsvc => ""
    case X8664AppleDarwin => ""
    case Aarch64UnknownLinuxGnu => ""
    case Aarch64UnknownLinuxMusl => ""
    case X8664UnknownLinuxMusl => ""
    case X8664Manylinux2014 => ""
    case X8664Manylinux217 => ""
    case X8664Manylinux228 => ""
    case X8664Manylinux231 => ""
    case X8664Manylinux232 => ""
    case X8664Manylinux233 => ""
    case X8664Manylinux234 => ""
    case X8664Manylinux235 => ""
    case X8664Manylinux236 => ""
    case X8664Manylinux237 => ""
    case X8664Manylinux238 => ""
    case X8664Manylinux239 => ""
    case X8664Manylinux240 => ""
    case Aarch64Manylinux2014 => ""
    case Aarch64Manylinux217 => ""
    case Aarch64Manylinux228 => ""
    case Aarch64Manylinux231 => ""
    case Aarch64Manylinux232 => ""
    case Aarch64Manylinux233 => ""
    case Aarch64Manylinux234 => ""
    case Aarch64Manylinux235 => ""
    case Aarch64Manylinux236 => ""
    case Aarch64Manylinux237 => ""
    case Aarch64Manylinux238 => ""
    case Aarch64Manylinux239 => ""
    case Aarch64Manylinux240 => ""
    case Wasm32Pyodide2024 => "#1"
  }

  /** The `platform_release` marker value (the Emscripten version of Pyodide 2024). */
  function PlatformRelease(t: TargetTriple): (release: string)
    ensures release == if t == Wasm32Pyodide2024 then "3.1.58" else ""
  {
    match t
    case Windows | X8664PcWindowsMsvc => ""
    case Linux | X8664UnknownLinuxGnu => ""
    case Macos | Aarch64AppleDarwin => ""
    case I686PcWindowsMsvc => ""
    case X8664AppleDarwin => ""
    case Aarch64UnknownLinuxGnu => ""
    case Aarch64UnknownLinuxMusl => ""
    case X8664UnknownLinuxMusl => ""
    case X8664Manylinux2014 => ""
    case X8664Manylinux217 => ""
    case X8664Manylinux228 => ""
    case X8664Manylinux231 => ""
    case X8664Manylinux232 => ""
    case X8664Manylinux233 => ""
    case X8664Manylinux234 => ""
    case X8664Manylinux235 => ""
    case X8664Manylinux236 => ""
    case X8664Manylinux237 => ""
    case X8664Manylinux238 => ""
    case X8664Manylinux239 => ""
    case X8664Manylinux240 => ""
    case Aarch64Manylinux2014 => ""
    case Aarch64Manylinux217 => ""
    case Aarch64Manylinux228 => ""
    case Aarch64Manylinux231 => ""
    case Aarch64Manylinux232 => ""
    case Aarch64Manylinux233 => ""
    case Aarch64Manylinux234 => ""
    case Aarch64Manylinux235 => ""
    case Aarch64Manylinux236 => ""
    case Aarch64Manylinux237 => ""
    case Aarch64Manylinux238 => ""
    case Aarch64Manylinux239 => ""
    case Aarch64Manylinux240 => ""
    case Wasm32Pyodide2024 => "3.1.58"
  }

  /** The `os_name` marker value. */
  function OsName(t: TargetTriple): (name: string)
    ensures name == if PlatformSystem(t) == "Windows" then "nt" else "posix"
    ensures name == "nt" <==> t.Windows? || t.X8664PcWindowsMsvc? || t.I686PcWindowsMsvc?
  {
    match t
    case Windows | X8664PcWindowsMsvc => "nt"
    case Linux | X8664UnknownLinuxGnu => "posix"
    case Macos | Aarch64AppleDarwin => "posix"
    case I686PcWindowsMsvc => "nt"
    case X8664AppleDarwin => "posix"
    case Aarch64UnknownLinuxGnu => "posix"
    case Aarch64UnknownLinuxMusl => "posix"
    case X8664UnknownLinuxMusl => "posix"
    case X8664Manylinux2014 => "posix"
    case X8664Manylinux217 => "posix"
    case X8664Manylinux228 => "posix"
    case X8664Manylinux231 => "posix"
    case X8664Manylinux232 => "posix"
    case X8664Manylinux233 => "posix"
    case X8664Manylinux234 => "posix"
    case X8664Manylinux235 => "posix"
    case X8664Manylinux236 => "posix"
    case X8664Manylinux237 => "posix"
    case X8664Manylinux238 => "posix"
    case X8664Manylinux239 => "posix"
    case X8664Manylinux240 => "posix"
    case Aarch64Manylinux2014 => "posix"
    case Aarch64Manylinux217 => "posix"
    case Aarch64Manylinux228 => "posix"
    case Aarch64Manylinux231 => "posix"
    case Aarch64Manylinux232 => "posix"
    case Aarch64Manylinux233 => "posix"
    case Aarch64Manylinux234 => "posix"
    case Aarch64Manylinux235 => "posix"
    case Aarch64Manylinux236 => "posix"
    case Aarch64Manylinux237 => "posix"
    case Aarch64Manylinux238 => "posix"
    case Aarch64Manylinux239 => "posix"
    case Aarch64Manylinux240 => "posix"
    case Wasm32Pyodide2024 => "posix"
  }

  /** The `sys_platform` marker value. */
  function SysPlatform(t: TargetTriple): (platform: string)
    ensures platform == SysPlatformOfSystem(PlatformSystem(t))
  {
    match t
    case Windows | X8664PcWindowsMsvc => "win32"
    case Linux | X8664UnknownLinuxGnu => "linux"
    case Macos | Aarch64AppleDarwin => "darwin"
    case I686PcWindowsMsvc => "win32"
    case X8664AppleDarwin => "darwin"
    case Aarch64UnknownLinuxGnu => "linux"
    case Aarch64UnknownLinuxMusl => "linux"
    case X8664UnknownLinuxMusl => "linux"
    case X8664Manylinux2014 => "linux"
    case X8664Manylinux217 => "linux"
    case X8664Manylinux228 => "linux"
    case X8664Manylinux231 => "linux"
    case X8664Manylinux232 => "linux"
    case X8664Manylinux233 => "linux"
    case X8664Manylinux234 => "linux"
    case X8664Manylinux235 => "linux"
    case X8664Manylinux236 => "linux"
    case X8664Manylinux237 => "linux"
    case X8664Manylinux238 => "linux"
    case X8664Manylinux239 => "linux"
    case X8664Manylinux240 => "linux"
    case Aarch64Manylinux2014 => "linux"
    case Aarch64Manylinux217 => "linux"
    case Aarch64Manylinux228 => "linux"
    case Aarch64Manylinux231 => "linux"
    case Aarch64Manylinux232 => "linux"
    case Aarch64Manylinux233 => "linux"
    case Aarch64Manylinux234 => "linux"
    case Aarch64Manylinux235 => "linux"
    case Aarch64Manylinux236 => "linux"
    case Aarch64Manylinux237 => "linux"
    case Aarch64Manylinux238 => "linux"
    case Aarch64Manylinux239 => "linux"
    case Aarch64Manylinux240 => "linux"
    case Wasm32Pyodide2024 => "emscripten"
  }

  /** Whether the target can use manylinux (and musllinux) wheels. */
  function ManylinuxCompatible(t: TargetTriple): (compatible: bool)
    ensures compatible <==> PlatformSystem(t) == "Linux"
    ensures forall env :: compatible <==> PlatformOf(t, env).os.Manylinux? || PlatformOf(t, env).os.Musllinux?
  {
    match t
    case Windows | X8664PcWindowsMsvc => false
    case Linux | X8664UnknownLinuxGnu => true
    case Macos | Aarch64AppleDarwin => false
    case I686PcWindowsMsvc => false
    case X8664AppleDarwin => false
    case Aarch64UnknownLinuxGnu => true
    case Aarch64UnknownLinuxMusl => true
    case X8664UnknownLinuxMusl => true
    case X8664Manylinux2014 => true
    case X8664Manylinux217 => true
    case X8664Manylinux228 => true
    case X8664Manylinux231 => true
    case X8664Manylinux232 => true
    case X8664Manylinux233 => true
    case X8664Manylinux234 => true
    case X8664Manylinux235 => true
    case X8664Manylinux236 => true
    case X8664Manylinux237 => true
    case X8664Manylinux238 => true
    case X8664Manylinux239 => true
    case X8664Manylinux240 => true
    case Aarch64Manylinux2014 => true
    case Aarch64Manylinux217 => true
    case Aarch64Manylinux228 => true
    case Aarch64Manylinux231 => true
    case Aarch64Manylinux232 => true
    case Aarch64Manylinux233 => true
    case Aarch64Manylinux234 => true
    case Aarch64Manylinux235 => true
    case Aarch64Manylinux236 => true
    case Aarch64Manylinux237 => true
    case Aarch64Manylinux238 => true
    case Aarch64Manylinux239 => true
    case Aarch64Manylinux240 => true
    case Wasm32Pyodide2024 => false
  }

  /**
   * The PEP 508 marker environment (the fields that `markers` reads or writes;
   * Python versions are kept as their text).
   */
  datatype MarkerEnvironment = MarkerEnvironment(
    implementationName: string,
    implementationVersion: string,
    osName: string,
    platformMachine: string,
    platformPythonImplementation: string,
    platformRelease: string,
    platformSystem: string,
    platformVersion: string,
    pythonFullVersion: string,
    pythonVersion: string,
    sysPlatform: string)

  /**
   * The marker environment for `t` built from `base`: the six platform markers come
   * from the target, the interpreter and Python-version markers from `base`.
   */
  function Markers(t: TargetTriple, base: MarkerEnvironment): (m: MarkerEnvironment)
    ensures m.osName == OsName(t) && m.platformMachine == PlatformMachine(t)
    ensures m.platformSystem == PlatformSystem(t) && m.sysPlatform == SysPlatform(t)
    ensures m.platformRelease == PlatformRelease(t) && m.platformVersion == PlatformVersion(t)
    ensures m.implementationName == base.implementationName
    ensures m.implementationVersion == base.implementationVersion
    ensures m.platformPythonImplementation == base.platformPythonImplementation
    ensures m.pythonFullVersion == base.pythonFullVersion
    ensures m.pythonVersion == base.pythonVersion
  {
    base.(osName := OsName(t))
        .(platformMachine := PlatformMachine(t))
        .(platformSystem := PlatformSystem(t))
        .(sysPlatform := SysPlatform(t))
        .(platformRelease := PlatformRelease(t))
        .(platformVersion := PlatformVersion(t))
  }

  /** Retargeting an environment forgets the previous target entirely. */
  lemma MarkersOverride(t: TargetTriple, u: TargetTriple, base: MarkerEnvironment)
    ensures Markers(t, Markers(u, base)) == Markers(t, base)
  {
  }

  /** Two triples that no accessor can tell apart. */
  predicate Indistinguishable(a: TargetTriple, b: TargetTriple, env: Option<string>)
  {
    && PlatformOf(a, env) == PlatformOf(b, env)
    && PlatformMachine(a) == PlatformMachine(b)
    && PlatformSystem(a) == PlatformSystem(b)
    && PlatformVersion(a) == PlatformVersion(b)
    && PlatformRelease(a) == PlatformRelease(b)
    && OsName(a) == OsName(b)
    && SysPlatform(a) == SysPlatform(b)
    && ManylinuxCompatible(a) == ManylinuxCompatible(b)
  }

  /** The three short names are aliases of their full triples. */
  lemma AliasesAgree(env: Option<string>)
    ensures Indistinguishable(Windows, X8664PcWindowsMsvc, env)
    ensures Indistinguishable(Linux, X8664UnknownLinuxGnu, env)
    ensures Indistinguishable(Macos, Aarch64AppleDarwin, env)
  {
  }

  /** The `platform_system` each kind of operating-system tag belongs to. */
  function SystemOfOs(os: Tags.Os): string
  {
    match os
    case Manylinux(_, _) | Musllinux(_, _) => "Linux"
    case Windows => "Windows"
    case Macos(_, _) => "Darwin"
    case Pyodide(_, _) => "Emscripten"
  }

  /** The `sys_platform` that goes with each `platform_system`. */
  function SysPlatformOfSystem(system: string): string
  {
    if system == "Linux" then "linux"
    else if system == "Windows" then "win32"
    else if system == "Darwin" then "darwin"
    else "emscripten"
  }

  /**
   * The architecture and glibc minor version a `*ManylinuxNN` triple names;
   * `manylinux2014` is `manylinux_2_17` (PEP 599 and PEP 600).
   */
  function ManylinuxNamed(t: TargetTriple): Option<(Tags.Arch, u16)>
  {
    match t
    case X8664Manylinux2014 | X8664Manylinux217 => Some((Tags.X86_64, 17))
    case X8664Manylinux228 => Some((Tags.X86_64, 28))
    case X8664Manylinux231 => Some((Tags.X86_64, 31))
    case X8664Manylinux232 => Some((Tags.X86_64, 32))
    case X8664Manylinux233 => Some((Tags.X86_64, 33))
    case X8664Manylinux234 => Some((Tags.X86_64, 34))
    case X8664Manylinux235 => Some((Tags.X86_64, 35))
    case X8664Manylinux236 => Some((Tags.X86_64, 36))
    case X8664Manylinux237 => Some((Tags.X86_64, 37))
    case X8664Manylinux238 => Some((Tags.X86_64, 38))
    case X8664Manylinux239 => Some((Tags.X86_64, 39))
    case X8664Manylinux240 => Some((Tags.X86_64, 40))
    case Aarch64Manylinux2014 | Aarch64Manylinux217 => Some((Tags.Aarch64, 17))
    case Aarch64Manylinux228 => Some((Tags.Aarch64, 28))
    case Aarch64Manylinux231 => Some((Tags.Aarch64, 31))
    case Aarch64Manylinux232 => Some((Tags.Aarch64, 32))
    case Aarch64Manylinux233 => Some((Tags.Aarch64, 33))
    case Aarch64Manylinux234 => Some((Tags.Aarch64, 34))
    case Aarch64Manylinux235 => Some((Tags.Aarch64, 35))
    case Aarch64Manylinux236 => Some((Tags.Aarch64, 36))
    case Aarch64Manylinux237 => Some((Tags.Aarch64, 37))
    case Aarch64Manylinux238 => Some((Tags.Aarch64, 38))
    case Aarch64Manylinux239 => Some((Tags.Aarch64, 39))
    case Aarch64Manylinux240 => Some((Tags.Aarch64, 40))
    case _ => None
  }

  /** Every `*ManylinuxNN` triple has the platform `manylinux_2_NN` on its architecture. */
  lemma ManylinuxTriplesUseTheirGlibc(t: TargetTriple, env: Option<string>)
    requires ManylinuxNamed(t).Some?
    ensures PlatformOf(t, env) == Tags.Platform(Tags.Manylinux(2, ManylinuxNamed(t).value.1), ManylinuxNamed(t).value.0)
    ensures PlatformMachine(t) == Tags.ArchName(ManylinuxNamed(t).value.0)
  {
  }

  /**
   * `manylinux2014` is `manylinux_2_17`, and the plain GNU/Linux triples are
   * `manylinux_2_28`.
   */
  lemma ManylinuxEquivalences(env: Option<string>)
    ensures PlatformOf(X8664Manylinux2014, env) == PlatformOf(X8664Manylinux217, env)
    ensures PlatformOf(Aarch64Manylinux2014, env) == PlatformOf(Aarch64Manylinux217, env)
    ensures PlatformOf(X8664UnknownLinuxGnu, env) == PlatformOf(X8664Manylinux228, env)
    ensures PlatformOf(Aarch64UnknownLinuxGnu, env) == PlatformOf(Aarch64Manylinux228, env)
  {
    Manylinux2014Is217(env);
    GnuIsManylinux228(env);
  }

  /** `manylinux2014` is another name for `manylinux_2_17` (PEP 600). */
  lemma Manylinux2014Is217(env: Option<string>)
    ensures PlatformOf(X8664Manylinux2014, env) == PlatformOf(X8664Manylinux217, env)
    ensures PlatformOf(Aarch64Manylinux2014, env) == PlatformOf(Aarch64Manylinux217, env)
  {
  }

  /** The plain GNU/Linux triples target `manylinux_2_28`. */
  lemma GnuIsManylinux228(env: Option<string>)
    ensures PlatformOf(X8664UnknownLinuxGnu, env) == PlatformOf(X8664Manylinux228, env)
    ensures PlatformOf(Aarch64UnknownLinuxGnu, env) == PlatformOf(Aarch64Manylinux228, env)
  {
  }

  /** Both musl triples use `musllinux_1_2` (PEP 656). */
  lemma MuslTriples(env: Option<string>)
    ensures PlatformOf(X8664UnknownLinuxMusl, env) == Tags.Platform(Tags.Musllinux(1, 2), Tags.X86_64)
    ensures PlatformOf(Aarch64UnknownLinuxMusl, env) == Tags.Platform(Tags.Musllinux(1, 2), Tags.Aarch64)
  {
  }

  /** The macOS triples use the deployment target, or 13.0 when none is set or it is malformed. */
  lemma MacosTriples(t: TargetTriple, env: Option<string>)
    requires t in {Macos, Aarch64AppleDarwin, X8664AppleDarwin}
    ensures MacosDeploymentTarget(env).Some? ==>
      PlatformOf(t, env).os == Tags.Macos(MacosDeploymentTarget(env).value.0, MacosDeploymentTarget(env).value.1)
    ensures MacosDeploymentTarget(env).None? ==> PlatformOf(t, env).os == Tags.Macos(13, 0)
    ensures PlatformOf(t, env).arch == if t == X8664AppleDarwin then Tags.X86_64 else Tags.Aarch64
  {
  }

  /** Only the macOS triples depend on the deployment target. */
  lemma OnlyMacosReadsDeploymentTarget(t: TargetTriple, env: Option<string>, env': Option<string>)
    requires t !in {Macos, Aarch64AppleDarwin, X8664AppleDarwin}
    ensures PlatformOf(t, env) == PlatformOf(t, env')
  {
  }

  /** How the parser reads a value whose first two pieces are given. */
  lemma DeploymentTargetFromPieces(version: string, major: u16, minor: u16)
    requires |Split(version, '.')| > 1
    requires ParseU16(Split(version, '.')[0]) == Some(major)
    requires ParseU16(Split(version, '.')[1]) == Some(minor)
    ensures MacosDeploymentTarget(Some(version)) == Some((major, minor))
  {
  }

  /** The decimal rendering of a number never holds a `.`. */
  lemma RenderHasNoDot(n: nat)
    ensures '.' !in Render(n)
  {
    var a := Render(n);
    assert forall i :: 0 <= i < |a| ==> IsDigit(a[i]);
  }

  /** `MAJOR.MINOR`, optionally followed by more `.`-separated text, parses to its two numbers. */
  lemma DeploymentTargetRoundTrip(major: u16, minor: u16, rest: string)
    requires rest == [] || rest[0] == '.'
    ensures MacosDeploymentTarget(Some(Render(major as nat) + "." + Render(minor as nat) + rest)) == Some((major, minor))
  {
    var a, b := Render(major as nat), Render(minor as nat);
    RenderHasNoDot(major as nat);
    RenderHasNoDot(minor as nat);
    var version := a + "." + b + rest;
    assert version == a + ['.'] + (b + rest);
    SplitAtFirstSeparator(a, '.', b + rest);
    var tail := Split(b + rest, '.');
    if rest == [] {
      assert b + rest == b;
      SplitNoSeparator(b, '.');
    } else {
      assert b + rest == b + ['.'] + rest[1..];
      SplitAtFirstSeparator(b, '.', rest[1..]);
    }
    assert tail[0] == b;
    assert Split(version, '.') == [a] + tail;
    ParseRender(major);
    ParseRender(minor);
    DeploymentTargetFromPieces(version, major, minor);
  }

  /** A zero-padded `u16` holds no `.` and parses to its value. */
  lemma PaddedPiece(zeros: nat, n: u16)
    ensures '.' !in Zeros(zeros) + Render(n as nat)
    ensures ParseU16(Zeros(zeros) + Render(n as nat)) == Some(n)
  {
    var a := Zeros(zeros) + Render(n as nat);
    ParseLeadingZeros(zeros, n);
    DigitsValueLeadingZeros(zeros, Render(n as nat));
    assert forall i :: 0 <= i < |a| ==> IsDigit(a[i]);
  }

  /** Leading zeros in either part, as in `10.09`, do not change the deployment target. */
  lemma DeploymentTargetLeadingZeros(major: u16, minor: u16, zerosMajor: nat, zerosMinor: nat)
    ensures MacosDeploymentTarget(Some(Zeros(zerosMajor) + Render(major as nat) + "." + (Zeros(zerosMinor) + Render(minor as nat))))
      == Some((major, minor))
  {
    var a, b := Zeros(zerosMajor) + Render(major as nat), Zeros(zerosMinor) + Render(minor as nat);
    PaddedPiece(zerosMajor, major);
    PaddedPiece(zerosMinor, minor);
    var version := a + "." + b;
    assert version == a + ['.'] + b;
    SplitAtFirstSeparator(a, '.', b);
    SplitNoSeparator(b, '.');
    assert Split(version, '.') == [a, b];
    DeploymentTargetFromPieces(version, major, minor);
  }

  /** A bare major version means minor version 0. */
  lemma DeploymentTargetMajorOnly(major: u16)
    ensures MacosDeploymentTarget(Some(Render(major as nat))) == Some((major, 0))
  {
    var a := Render(major as nat);
    RenderHasNoDot(major as nat);
    SplitNoSeparator(a, '.');
    ParseRender(major);
    assert Render(0) == "0";
  }

  /** An empty value, or one with an empty minor part (`12.`), is no deployment target. */
  lemma DeploymentTargetRejectsEmptyParts(major: u16)
    ensures MacosDeploymentTarget(Some("")) == None
    ensures MacosDeploymentTarget(Some(Render(major as nat) + ".")) == None
  {
    var a := Render(major as nat);
    RenderHasNoDot(major as nat);
    assert a + "." == a + ['.'] + "";
    SplitAtFirstSeparator(a, '.', "");
  }
}
