/**
 * The platform selector: the build-time table that decides, from the
 * compiler and the target platform, which wrapper groups exist, how
 * recording is initialised and shut down, and what the program-entry macros
 * `RMEM_ENTRY_CONSOLE` and `RMEM_ENTRY_WINDOWED` expand to. Startup machinery
 * (constructor priorities, `atexit`, the CRT entry points) appears only as
 * the ordered list of actions each expansion performs.
 */
module Selector {
  import opened Recording

  /** GNU compilers (`__GNUC__` defined) and every other compiler, which in practice is MSVC. */
  datatype Compiler = Gcc | Msvc

  /** The `RMEM_PLATFORM_*` switch; `OtherPlatform` is a target none of them names. */
  datatype Platform = Windows | Linux | PS3 | PS4 | Android | Xbox360 | OtherPlatform

  /** Console (`RMEM_ENTRY_CONSOLE`) or windowed (`RMEM_ENTRY_WINDOWED`) program. */
  datatype AppKind = Console | Windowed

  /** The `RMEM_NO_*` switches a GNU build defines per platform. */
  datatype Flag = NoMallocInit | NoMemalign | NoReallocAlign | NoExpand

  /** The flags a GNU build defines for a platform. */
  function GccFlags(p: Platform): set<Flag>
  {
    match p
    case Windows => {NoMallocInit, NoMemalign, NoReallocAlign}
    case Linux => {NoMallocInit, NoMemalign, NoReallocAlign, NoExpand}
    case PS3 => {NoExpand}
    case PS4 => {NoExpand, NoMallocInit}
    case Android => {NoMallocInit, NoReallocAlign, NoExpand}
    case Xbox360 => {}
    case OtherPlatform => {}
  }

  /** The four wrapper macros `RMEM_GCC_ENTRY_WRAP_1` to `RMEM_GCC_ENTRY_WRAP_4`. */
  datatype WrapGroup = Wrap1 | Wrap2 | Wrap3 | Wrap4

  /** The wrapper functions a group defines when it is not empty. */
  function GroupPrimitives(g: WrapGroup): set<Primitive>
  {
    match g
    case Wrap1 => {Malloc, Realloc, Calloc, Free}
    case Wrap2 => {Expand}
    case Wrap3 => {Memalign}
    case Wrap4 => {ReallocAlign}
  }

  /** The groups that expand to wrapper code under the given flags; each optional group is emptied by its own flag. */
  function EmittedGroups(flags: set<Flag>): set<WrapGroup>
  {
    {Wrap1}
    + (if NoExpand in flags then {} else {Wrap2})
    + (if NoMemalign in flags then {} else {Wrap3})
    + (if NoReallocAlign in flags then {} else {Wrap4})
  }

  /** The primitives defined by a set of groups. */
  function PrimitivesOf(groups: set<WrapGroup>): set<Primitive>
  {
    (if Wrap1 in groups then GroupPrimitives(Wrap1) else {})
    + (if Wrap2 in groups then GroupPrimitives(Wrap2) else {})
    + (if Wrap3 in groups then GroupPrimitives(Wrap3) else {})
    + (if Wrap4 in groups then GroupPrimitives(Wrap4) else {})
  }

  /** The handlers the shim registers with `atexit`. */
  datatype ExitHandler = RecordingShutDownHandler | UnhookHandler

  /** The two CRT entry points a redirected program entry hands control to. */
  datatype CrtEntry = MainCrtStartup | WinMainCrtStartup

  /** A lifecycle step, in the order an expansion performs it. */
  datatype Action =
    | HookAllocs(enable: int)          // rmemHookAllocs(1)
    | UnhookAllocs                     // rmemUnhookAllocs()
    | RecordingInit(argument: nat)     // rmemInit(argument)
    | RecordingShutDown                // rmemShutDown()
    | AtExit(handler: ExitHandler)     // atexit(handler)
    | CallRealMallocInit               // __real__malloc_init(alignment, blockSize)
    | StartCrt(crt: CrtEntry)          // mainCRTStartup() or WinMainCRTStartup()

  /** How a GNU build starts and stops recording (`RMEM_GCC_ENTRY_INIT`). */
  datatype InitStrategy =
      /** A `constructor(101)` and a `destructor(1001)` function. */
    | PriorityHooks(atStartup: seq<Action>, atShutdown: seq<Action>)
      /** A wrapper around the C runtime's `_malloc_init`. */
    | MallocInitHook(body: seq<Action>)

  /** `RMEM_GCC_ENTRY_INIT` for a platform. */
  function GccInit(p: Platform): InitStrategy
  {
    if NoMallocInit in GccFlags(p) then
      if p == Windows then PriorityHooks([HookAllocs(1)], [UnhookAllocs])
      else PriorityHooks([RecordingInit(0)], [RecordingShutDown])
    else
      MallocInitHook([RecordingInit(0), AtExit(RecordingShutDownHandler), CallRealMallocInit])
  }

  /** What an entry macro expands to. */
  datatype Entry =
      /** GNU builds: the init strategy plus the wrappers bound by the linker's `--wrap`. */
    | LinkTimeEntry(init: InitStrategy, wrapped: set<Primitive>)
      /** Other compilers: a replacement program entry `rmemEntry()` with this body. */
    | EntryFunction(body: seq<Action>)

  /** An entry macro either expands or stops the build with "Unsupported compiler!". */
  datatype Expansion = Expanded(entry: Entry) | UnsupportedCompiler

  /** `RMEM_ENTRY_CONSOLE` / `RMEM_ENTRY_WINDOWED` for a compiler, a platform and a kind of program. */
  function EntryMacro(c: Compiler, p: Platform, kind: AppKind): Expansion
  {
    match c
    case Gcc =>
      if p == Windows then Expanded(LinkTimeEntry(GccInit(p), {}))
      else Expanded(LinkTimeEntry(GccInit(p), PrimitivesOf(EmittedGroups(GccFlags(p)))))
    case Msvc =>
      if p == Windows then
        Expanded(EntryFunction([HookAllocs(1), StartCrt(if kind == Console then MainCrtStartup else WinMainCrtStartup)]))
      else if p == Xbox360 then
        Expanded(EntryFunction([HookAllocs(1), StartCrt(MainCrtStartup), AtExit(UnhookHandler)]))
      else UnsupportedCompiler
  }

  /** The primitives whose link-time wrappers an expansion defines. */
  function WrappedPrimitives(c: Compiler, p: Platform, kind: AppKind): set<Primitive>
  {
    match EntryMacro(c, p, kind)
    case Expanded(LinkTimeEntry(_, wrapped)) => wrapped
    case _ => {}
  }

  /** `a` occurs strictly before `b` in `s`. */
  predicate Before(s: seq<Action>, a: Action, b: Action)
  {
    exists i, j :: 0 <= i < j < |s| && s[i] == a && s[j] == b
  }

  /** Each optional wrapper group is emitted exactly when its `RMEM_NO_*` flag is not defined; the basic group always is. */
  lemma GroupEmittedIffFlagUnset(flags: set<Flag>)
    ensures Wrap1 in EmittedGroups(flags)
    ensures Wrap2 in EmittedGroups(flags) <==> NoExpand !in flags
    ensures Wrap3 in EmittedGroups(flags) <==> NoMemalign !in flags
    ensures Wrap4 in EmittedGroups(flags) <==> NoReallocAlign !in flags
  {
  }

  /**
   * On every GNU target other than Windows, malloc, realloc, calloc and free
   * are always wrapped, and `_expand`, `memalign` and `reallocalign` are
   * wrapped exactly when the platform does not switch them off.
   */
  lemma GccWrappedFollowsFlags(p: Platform, kind: AppKind)
    requires p != Windows
    ensures {Malloc, Realloc, Calloc, Free} <= WrappedPrimitives(Gcc, p, kind)
    ensures Expand in WrappedPrimitives(Gcc, p, kind) <==> NoExpand !in GccFlags(p)
    ensures Memalign in WrappedPrimitives(Gcc, p, kind) <==> NoMemalign !in GccFlags(p)
    ensures ReallocAlign in WrappedPrimitives(Gcc, p, kind) <==> NoReallocAlign !in GccFlags(p)
  {
    var flags := GccFlags(p);
    var groups := EmittedGroups(flags);
    GroupEmittedIffFlagUnset(flags);
    assert WrappedPrimitives(Gcc, p, kind) == PrimitivesOf(groups);
  }

  /**
   * The wrapper sets of the individual platforms: only a GNU build for Xbox 360
   * (or for a platform the table does not name) wraps all seven primitives;
   * GNU on Windows and every other compiler wrap none at link time.
   */
  lemma WrappedPerPlatform(kind: AppKind)
    ensures WrappedPrimitives(Gcc, Linux, kind) == {Malloc, Realloc, Calloc, Free}
    ensures WrappedPrimitives(Gcc, Android, kind) == {Malloc, Realloc, Calloc, Free, Memalign}
    ensures WrappedPrimitives(Gcc, PS3, kind) == {Malloc, Realloc, Calloc, Free, Memalign, ReallocAlign}
    ensures WrappedPrimitives(Gcc, PS4, kind) == WrappedPrimitives(Gcc, PS3, kind)
    ensures WrappedPrimitives(Gcc, Xbox360, kind) == {Malloc, Realloc, Calloc, Free, Expand, Memalign, ReallocAlign}
    ensures WrappedPrimitives(Gcc, Windows, kind) == {}
    ensures forall p :: WrappedPrimitives(Msvc, p, kind) == {}
  {
    assert EmittedGroups(GccFlags(Linux)) == {Wrap1};
    assert EmittedGroups(GccFlags(Android)) == {Wrap1, Wrap3};
    assert EmittedGroups(GccFlags(PS3)) == {Wrap1, Wrap3, Wrap4};
    assert EmittedGroups(GccFlags(PS4)) == {Wrap1, Wrap3, Wrap4};
    assert EmittedGroups(GccFlags(Xbox360)) == {Wrap1, Wrap2, Wrap3, Wrap4};
  }

  /** GNU builds use the priority constructor pair exactly when `_malloc_init` cannot be wrapped. */
  lemma GccInitFollowsFlag(p: Platform)
    ensures GccInit(p).PriorityHooks? <==> NoMallocInit in GccFlags(p)
    ensures GccInit(p).PriorityHooks? <==> p in {Windows, Linux, PS4, Android}
  {
  }

  /** The entry macros fail to expand exactly for a compiler other than GCC on a platform other than Windows and Xbox 360. */
  lemma UnsupportedExactly(c: Compiler, p: Platform, kind: AppKind)
    ensures EntryMacro(c, p, kind).UnsupportedCompiler? <==> c == Msvc && p !in {Windows, Xbox360}
    ensures c == Gcc ==> EntryMacro(c, p, kind) == Expanded(LinkTimeEntry(GccInit(p), WrappedPrimitives(c, p, kind)))
  {
  }

  /**
   * The `_malloc_init` wrapper starts recording with `rmemInit(0)` and registers the
   * recording shutdown with `atexit` before it calls the real `_malloc_init`.
   */
  lemma MallocInitOrder(p: Platform)
    requires GccInit(p).MallocInitHook?
    ensures Before(GccInit(p).body, RecordingInit(0), AtExit(RecordingShutDownHandler))
    ensures Before(GccInit(p).body, AtExit(RecordingShutDownHandler), CallRealMallocInit)
    ensures |GccInit(p).body| == 3
  {
    var body := GccInit(p).body;
    assert body[0] == RecordingInit(0) && body[1] == AtExit(RecordingShutDownHandler);
    assert body[2] == CallRealMallocInit;
  }

  /**
   * The priority constructor starts exactly what the priority destructor
   * stops: allocation hooks on Windows, the recorder everywhere else.
   */
  lemma PriorityHooksPaired(p: Platform)
    requires GccInit(p).PriorityHooks?
    ensures p == Windows ==> GccInit(p).atStartup == [HookAllocs(1)] && GccInit(p).atShutdown == [UnhookAllocs]
    ensures p != Windows ==> GccInit(p).atStartup == [RecordingInit(0)] && GccInit(p).atShutdown == [RecordingShutDown]
  {
  }

  /**
   * A replacement program entry hooks the allocator before it starts the
   * CRT. On Xbox 360 it then registers the unhook with `atexit`; on Windows
   * it registers nothing, so the hooks are never removed.
   */
  lemma EntryFunctionOrder(c: Compiler, p: Platform, kind: AppKind)
    requires EntryMacro(c, p, kind).Expanded? && EntryMacro(c, p, kind).entry.EntryFunction?
    ensures c == Msvc && p in {Windows, Xbox360}
    ensures Before(EntryMacro(c, p, kind).entry.body, HookAllocs(1), EntryMacro(c, p, kind).entry.body[1])
    ensures EntryMacro(c, p, kind).entry.body[1].StartCrt?
    ensures p == Windows ==>
              && EntryMacro(c, p, kind).entry.body[1].crt == (if kind == Console then MainCrtStartup else WinMainCrtStartup)
              && |EntryMacro(c, p, kind).entry.body| == 2
              && UnhookAllocs !in EntryMacro(c, p, kind).entry.body
              && AtExit(UnhookHandler) !in EntryMacro(c, p, kind).entry.body
    ensures p == Xbox360 ==>
              && Before(EntryMacro(c, p, kind).entry.body, StartCrt(MainCrtStartup), AtExit(UnhookHandler))
              && |EntryMacro(c, p, kind).entry.body| == 3
  {
    var body := EntryMacro(c, p, kind).entry.body;
    assert body[0] == HookAllocs(1);
    if p == Xbox360 {
      assert body[1] == StartCrt(MainCrtStartup) && body[2] == AtExit(UnhookHandler);
    }
  }
}
