/**
 * The `baylang:init` console command (src/InitCommand.php). Each scaffolding
 * step checks whether its destination exists, creates the parent directory
 * when it has to, announces itself and writes fixed content; `handle` runs the
 * steps in a fixed order and stops at the first filesystem error. The steps
 * are specified by functions on a `World` (the filesystem plus everything the
 * command emits); the class `InitCommand` performs them in place.
 */
module Init {
  import opened Wrappers
  import opened Json
  import opened Filesystem
  import opened Templates
  import opened Sources
  import opened Composer

  /** What the command emits besides file writes, in order. */
  datatype Event =
    | Info(line: string)                    // `$this->info(...)`
    | NewLine                               // `$this->newLine()`
    | Fetch(url: string)                    // the download `file_get_contents` starts
    | Publish(provider: string, force: bool)  // `Artisan::call("vendor:publish", ...)`
    | DumpAutoload                          // the `composer dump-autoload` process

  datatype World = World(disk: Disk, log: seq<Event>)

  /**
   * A failed `mkdir` or `file_put_contents` raises a PHP warning, which the
   * console framework turns into an exception that ends the command.
   */
  datatype FsError = MkdirFailed(dir: Path) | WriteFailed(path: Path)

  datatype Outcome = Skipped | Created | Failed(error: FsError)

  datatype StepResult = StepResult(outcome: Outcome, world: World)

  /**
   * One guarded create step: its destination, whether it first creates the
   * parent directory, what it emits once it has decided to write, and what it
   * writes.
   */
  datatype Entry = Entry(path: Path, makeParent: bool, announce: seq<Event>, content: Blob)

  const ProjectEntry: Entry :=
    Entry(ProjectPath, false, [Info("Create project.json")], Generated(ProjectJson))
  const ModuleEntry: Entry :=
    Entry(ModulePath, false, [Info("Create module.json")], Generated(ModuleJson))
  const CssEntry: Entry :=
    Entry(CssPath, true, [Info("Create CSS")], Written(CssBlock))
  const IndexPageEntry: Entry :=
    Entry(IndexPagePath, true, [Info("Create IndexPage")], Written(IndexPageComponent))
  const IndexPageModelEntry: Entry :=
    Entry(IndexPageModelPath, true, [Info("Create IndexPageModel")], Written(IndexPageModelClass))
  const ModuleDescriptionEntry: Entry :=
    Entry(ModuleDescriptionPath, false, [Info("Create ModuleDescription")], Written(ModuleDescriptionClass))

  /**
   * The Vue download: `fetched` is what `@file_get_contents` returns, `None`
   * standing for `false`; `file_put_contents` then writes the empty string.
   */
  function VueEntry(fetched: Option<string>): Entry {
    Entry(VuePath, true, [Info("Download Vue from " + VueUrl), Fetch(VueUrl)], Text(fetched.GetOr("")))
  }

  /** The write at the end of a step; a failed write changes nothing on disk. */
  function Write(w: World, e: Entry): StepResult {
    match WriteFile(w.disk, e.path, e.content)
    case None => StepResult(Failed(WriteFailed(e.path)), w)
    case Some(d) => StepResult(Created, World(d, w.log))
  }

  /**
   * A guarded create step: nothing happens when the destination exists; a
   * step that makes its parent creates it unless it is already a directory.
   */
  function Put(w: World, e: Entry): (r: StepResult)
    ensures r.outcome.Skipped? <==> Exists(w.disk, e.path)
    ensures r.outcome.Skipped? ==> r.world == w
    ensures r.outcome.Created? ==> r.world.disk.files == w.disk.files[e.path := e.content]
    ensures w.disk.files.Keys <= r.world.disk.files.Keys && w.log <= r.world.log
  {
    if Exists(w.disk, e.path) then StepResult(Skipped, w)
    else if e.makeParent && !IsDir(w.disk, Parent(e.path)) then
      match MakeDirs(w.disk, Parent(e.path))
      case None => StepResult(Failed(MkdirFailed(Parent(e.path))), w)
      case Some(d) => Write(World(d, w.log + e.announce), e)
    else Write(World(w.disk, w.log + e.announce), e)
  }

  /** What `publishAssets` emits; the copy itself is the framework's. */
  const PublishEvents: seq<Event> := [Info("Publish assets"), Publish(ServiceProviderClass, true)]

  /** `publishAssets`: no existence check, always forced, the disk as the model sees it unchanged. */
  function Published(w: World): World {
    World(w.disk, w.log + PublishEvents)
  }

  /** A call `handle` makes: a create step, the publish, or the download. */
  datatype Step = CreateStep(entry: Entry) | PublishStep | DownloadStep

  /** The entry a create step or the download writes. */
  function Target(step: Step, fetched: Option<string>): Entry
    requires !step.PublishStep?
  {
    if step.CreateStep? then step.entry else VueEntry(fetched)
  }

  /** A sequence of steps, first step outermost. */
  datatype Plan = Done | Then(step: Step, rest: Plan)

  /** The calls `handle` makes, in its order (publish comes before the download). */
  const HandlePlan: Plan :=
    Then(CreateStep(ProjectEntry), Then(CreateStep(ModuleEntry), Then(CreateStep(CssEntry),
    Then(CreateStep(IndexPageEntry), Then(CreateStep(IndexPageModelEntry),
    Then(CreateStep(ModuleDescriptionEntry), Then(PublishStep, Then(DownloadStep, Done))))))))

  datatype Run = Completed | Aborted(error: FsError)

  datatype RunResult = RunResult(world: World, run: Run)

  /**
   * Running steps in order, the download writing `fetched`; the first failure
   * ends the run.
   */
  function RunSteps(w: World, steps: Plan, fetched: Option<string>): (r: RunResult)
    ensures w.disk.files.Keys <= r.world.disk.files.Keys && w.log <= r.world.log
    decreases steps
  {
    match steps
    case Done => RunResult(w, Completed)
    case Then(PublishStep, rest) => RunSteps(Published(w), rest, fetched)
    case Then(step, rest) =>
      var r := Put(w, Target(step, fetched));
      if r.outcome.Failed? then RunResult(r.world, Aborted(r.outcome.error))
      else RunSteps(r.world, rest, fetched)
  }

  /** The banner `handle` prints before its steps. */
  const Banner: seq<Event> := [Info("Init BayLang"), NewLine]

  /** The run of `handle` written out call by call, as its body makes them. */
  function Unrolled(w: World, fetched: Option<string>): RunResult {
    var w0 := World(w.disk, w.log + Banner);
    var r1 := Put(w0, ProjectEntry);
    if r1.outcome.Failed? then RunResult(r1.world, Aborted(r1.outcome.error)) else
    var r2 := Put(r1.world, ModuleEntry);
    if r2.outcome.Failed? then RunResult(r2.world, Aborted(r2.outcome.error)) else
    var r3 := Put(r2.world, CssEntry);
    if r3.outcome.Failed? then RunResult(r3.world, Aborted(r3.outcome.error)) else
    var r4 := Put(r3.world, IndexPageEntry);
    if r4.outcome.Failed? then RunResult(r4.world, Aborted(r4.outcome.error)) else
    var r5 := Put(r4.world, IndexPageModelEntry);
    if r5.outcome.Failed? then RunResult(r5.world, Aborted(r5.outcome.error)) else
    var r6 := Put(r5.world, ModuleDescriptionEntry);
    if r6.outcome.Failed? then RunResult(r6.world, Aborted(r6.outcome.error)) else
    var r7 := Put(Published(r6.world), VueEntry(fetched));
    if r7.outcome.Failed? then RunResult(r7.world, Aborted(r7.outcome.error)) else
    RunResult(r7.world, Completed)
  }

  /** `composer.json` as `json_decode` sees it: `None` when there is no regular file to read. */
  function ReadComposer(d: Disk, decode: Blob -> Option<Value>): Option<Value> {
    if ComposerPath in d.files then decode(d.files[ComposerPath]) else None
  }

  /** The file is rewritten, and the autoloader dumped, only on a rewrite. */
  function Apply(w: World, e: Edit): World {
    match e
    case Rewrite(doc) =>
      World(Disk(w.disk.files[ComposerPath := Encoded(doc)], w.disk.dirs),
            w.log + [Info("Update composer.json"), DumpAutoload])
    case _ => w
  }

  /** `changeComposer` on a world. */
  function ComposerStep(w: World, decode: Blob -> Option<Value>): World {
    Apply(w, Change(ReadComposer(w.disk, decode)))
  }

  class InitCommand {
    var files: map<Path, Blob>
    var dirs: set<Path>
    var log: seq<Event>

    function Tree(): Disk
      reads this
    {
      Disk(files, dirs)
    }

    function State(): World
      reads this
    {
      World(Tree(), log)
    }

    ghost predicate Valid()
      reads this
    {
      Filesystem.Valid(Tree())
    }

    constructor (disk: Disk)
      requires Filesystem.Valid(disk)
      ensures Valid() && State() == World(disk, [])
    {
      files, dirs, log := disk.files, disk.dirs, [];
    }

    /** `mkdir($dir, 0777, true)`. */
    method Mkdir(dir: Path) returns (ok: bool)
      requires Valid()
      modifies this
      ensures Valid()
      ensures ok == MakeDirs(old(Tree()), dir).Some?
      ensures State() == if ok then World(MakeDirs(old(Tree()), dir).value, old(log)) else old(State())
    {
      MakeDirsValid(Tree(), dir);
      ok := dir !in dirs && Ancestors(dir) !! files.Keys;
      if ok {
        dirs := dirs + Ancestors(dir);
      }
    }

    /** `file_put_contents($path, $content)`. */
    method FilePutContents(path: Path, content: Blob) returns (ok: bool)
      requires Valid()
      modifies this
      ensures Valid()
      ensures ok == WriteFile(old(Tree()), path, content).Some?
      ensures State() == if ok then World(WriteFile(old(Tree()), path, content).value, old(log)) else old(State())
    {
      WriteFileValid(Tree(), path, content);
      ok := path != [] && Parent(path) in dirs && path !in dirs;
      if ok {
        files := files[path := content];
      }
    }

    /** The body every create step shares: check, make the parent, announce, write. */
    method PutFile(e: Entry) returns (r: Outcome)
      requires Valid()
      modifies this
      ensures Valid()
      ensures StepResult(r, State()) == Put(old(State()), e)
    {
      if Exists(Tree(), e.path) {
        return Skipped;
      }
      if e.makeParent {
        var dir := Parent(e.path);
        if !IsDir(Tree(), dir) {
          var made := Mkdir(dir);
          if !made {
            return Failed(MkdirFailed(dir));
          }
        }
      }
      log := log + e.announce;
      var written := FilePutContents(e.path, e.content);
      r := if written then Created else Failed(WriteFailed(e.path));
    }

    method CreateProject() returns (r: Outcome)
      requires Valid()
      modifies this
      ensures Valid()
      ensures StepResult(r, State()) == Put(old(State()), ProjectEntry)
    {
      r := PutFile(ProjectEntry);
    }

    method CreateModule() returns (r: Outcome)
      requires Valid()
      modifies this
      ensures Valid()
      ensures StepResult(r, State()) == Put(old(State()), ModuleEntry)
    {
      r := PutFile(ModuleEntry);
    }

    method CreateCss() returns (r: Outcome)
      requires Valid()
      modifies this
      ensures Valid()
      ensures StepResult(r, State()) == Put(old(State()), CssEntry)
    {
      r := PutFile(CssEntry);
    }

    method CreateIndexPage() returns (r: Outcome)
      requires Valid()
      modifies this
      ensures Valid()
      ensures StepResult(r, State()) == Put(old(State()), IndexPageEntry)
    {
      r := PutFile(IndexPageEntry);
    }

    method CreateIndexPageModel() returns (r: Outcome)
      requires Valid()
      modifies this
      ensures Valid()
      ensures StepResult(r, State()) == Put(old(State()), IndexPageModelEntry)
    {
      r := PutFile(IndexPageModelEntry);
    }

    method CreateModuleDescription() returns (r: Outcome)
      requires Valid()
      modifies this
      ensures Valid()
      ensures StepResult(r, State()) == Put(old(State()), ModuleDescriptionEntry)
    {
      r := PutFile(ModuleDescriptionEntry);
    }

    method DownloadVue(fetched: Option<string>) returns (r: Outcome)
      requires Valid()
      modifies this
      ensures Valid()
      ensures StepResult(r, State()) == Put(old(State()), VueEntry(fetched))
    {
      r := PutFile(VueEntry(fetched));
    }

    method PublishAssets()
      requires Valid()
      modifies this
      ensures Valid()
      ensures State() == Published(old(State()))
    {
      log := log + PublishEvents;
    }

    /**
     * `changeComposer`, with `json_decode` as the parameter `decode`. The
     * edits to `$content` are edits of a local PHP array, which is a value,
     * so they are the function `Change`; the method does the file access
     * around it. The result says which way the method went.
     */
    method ChangeComposer(decode: Blob -> Option<Value>) returns (e: Edit)
      requires Valid()
      modifies this
      ensures Valid()
      ensures e == Change(ReadComposer(old(Tree()), decode))
      ensures State() == Apply(old(State()), e)
    {
      if !Exists(Tree(), ComposerPath) {
        return Skip;
      }
      var content := if ComposerPath in files then decode(files[ComposerPath]) else None;
      e := Change(content);
      if e.Rewrite? {
        var ok := FilePutContents(ComposerPath, Encoded(e.doc));
        assert ok;
        log := log + [Info("Update composer.json"), DumpAutoload];
      }
    }

    method Handle(fetched: Option<string>) returns (run: Run)
      requires Valid()
      modifies this
      ensures Valid()
      ensures RunResult(State(), run) == RunSteps(World(old(Tree()), old(log) + Banner), HandlePlan, fetched)
    {
      HandleRunsSteps(State(), fetched);
      log := log + Banner;
      var r := CreateProject();
      if r.Failed? {
        return Aborted(r.error);
      }
      r := CreateModule();
      if r.Failed? {
        return Aborted(r.error);
      }
      r := CreateCss();
      if r.Failed? {
        return Aborted(r.error);
      }
      r := CreateIndexPage();
      if r.Failed? {
        return Aborted(r.error);
      }
      r := CreateIndexPageModel();
      if r.Failed? {
        return Aborted(r.error);
      }
      r := CreateModuleDescription();
      if r.Failed? {
        return Aborted(r.error);
      }
      PublishAssets();
      r := DownloadVue(fetched);
      if r.Failed? {
        return Aborted(r.error);
      }
      return Completed;
    }
  }

  /** The call-by-call form of `handle` is the generic run of its plan after the banner. */
  lemma HandleRunsSteps(w: World, fetched: Option<string>)
    ensures Unrolled(w, fetched) == RunSteps(World(w.disk, w.log + Banner), HandlePlan, fetched)
  {
    var p := HandlePlan;
    var w0 := World(w.disk, w.log + Banner);
    var r1 := Put(w0, ProjectEntry);
    assert RunSteps(w0, p, fetched) == if r1.outcome.Failed? then RunResult(r1.world, Aborted(r1.outcome.error)) else RunSteps(r1.world, p.rest, fetched);
    if r1.outcome.Failed? { return; }
    p := p.rest;
    var r2 := Put(r1.world, ModuleEntry);
    assert RunSteps(r1.world, p, fetched) == if r2.outcome.Failed? then RunResult(r2.world, Aborted(r2.outcome.error)) else RunSteps(r2.world, p.rest, fetched);
    if r2.outcome.Failed? { return; }
    p := p.rest;
    var r3 := Put(r2.world, CssEntry);
    assert RunSteps(r2.world, p, fetched) == if r3.outcome.Failed? then RunResult(r3.world, Aborted(r3.outcome.error)) else RunSteps(r3.world, p.rest, fetched);
    if r3.outcome.Failed? { return; }
    p := p.rest;
    var r4 := Put(r3.world, IndexPageEntry);
    assert RunSteps(r3.world, p, fetched) == if r4.outcome.Failed? then RunResult(r4.world, Aborted(r4.outcome.error)) else RunSteps(r4.world, p.rest, fetched);
    if r4.outcome.Failed? { return; }
    p := p.rest;
    var r5 := Put(r4.world, IndexPageModelEntry);
    assert RunSteps(r4.world, p, fetched) == if r5.outcome.Failed? then RunResult(r5.world, Aborted(r5.outcome.error)) else RunSteps(r5.world, p.rest, fetched);
    if r5.outcome.Failed? { return; }
    p := p.rest;
    var r6 := Put(r5.world, ModuleDescriptionEntry);
    assert RunSteps(r5.world, p, fetched) == if r6.outcome.Failed? then RunResult(r6.world, Aborted(r6.outcome.error)) else RunSteps(r6.world, p.rest, fetched);
    if r6.outcome.Failed? { return; }
    p := p.rest;
    assert RunSteps(r6.world, p, fetched) == RunSteps(Published(r6.world), p.rest, fetched);
    p := p.rest;
    var r7 := Put(Published(r6.world), VueEntry(fetched));
    assert RunSteps(Published(r6.world), p, fetched) == if r7.outcome.Failed? then RunResult(r7.world, Aborted(r7.outcome.error)) else RunSteps(r7.world, p.rest, fetched);
  }
}
