/**
 * What the init command guarantees, proved about the functions in `Init`
 * that the methods of `Init.InitCommand` are tied to: one create step, a run
 * of steps, `handle` run twice, the forced publish, the Vue download and the
 * composer.json rule on a world.
 */
module Properties {
  import opened Wrappers
  import opened Json
  import opened Filesystem
  import opened Templates
  import opened Sources
  import opened Composer
  import opened Init

  /**
   * Whether a step that has decided to write can create its file: a step
   * that makes its parent needs no regular file on the way to it; any other
   * step needs the parent to be a directory already.
   */
  predicate CanCreate(d: Disk, e: Entry) {
    if e.makeParent then Ancestors(Parent(e.path)) !! d.files.Keys
    else Parent(e.path) in d.dirs
  }

  /** A path is never among the directories on the way to its own parent. */
  lemma NotAncestorOfParent(p: Path)
    requires p != []
    ensures p !in Ancestors(Parent(p))
  {
    AncestorsArePrefixes(Parent(p), p);
  }

  /**
   * One create step on a well-formed tree. It keeps the tree well formed. It
   * is a no-op when its destination exists. Otherwise it creates the file
   * exactly when `CanCreate` holds, and then the file holds the step's
   * content, no other file changes, the only new directories are those on
   * the way to the parent (and only for a step that makes its parent), and
   * the log grows by the announcement. A failure leaves the disk alone; a
   * failed `mkdir` comes before the announcement, a failed write after it.
   */
  lemma PutStep(w: World, e: Entry)
    requires Filesystem.Valid(w.disk)
    ensures var r := Put(w, e);
      && Filesystem.Valid(r.world.disk)
      && (Exists(w.disk, e.path) ==> r == StepResult(Skipped, w))
      && (!Exists(w.disk, e.path) ==> (r.outcome == Created <==> CanCreate(w.disk, e)))
      && (r.outcome == Created ==>
            r.world == World(Disk(w.disk.files[e.path := e.content],
                                  w.disk.dirs + (if e.makeParent then Ancestors(Parent(e.path)) else {})),
                             w.log + e.announce))
      && (r.outcome.Failed? ==>
            && r.world.disk == w.disk
            && r.outcome.error == (if e.makeParent then MkdirFailed(Parent(e.path)) else WriteFailed(e.path))
            && r.world.log == w.log + (if e.makeParent then [] else e.announce))
  {
    if !Exists(w.disk, e.path) {
      NotAncestorOfParent(e.path);
      var dir := Parent(e.path);
      if !e.makeParent {
        WriteFileValid(w.disk, e.path, e.content);
      } else if IsDir(w.disk, dir) {
        assert Ancestors(dir) <= w.disk.dirs;
        WriteFileValid(w.disk, e.path, e.content);
      } else {
        MakeDirsValid(w.disk, dir);
        if MakeDirs(w.disk, dir).Some? {
          WriteFileValid(MakeDirs(w.disk, dir).value, e.path, e.content);
        }
      }
    }
  }

  /**
   * Without app/, createModule fails at the write: its parent is never
   * created, and the disk is left as it was.
   */
  lemma ModuleNeedsAppDirectory(w: World)
    requires Filesystem.Valid(w.disk)
    requires !Exists(w.disk, ModulePath) && !IsDir(w.disk, ["app"])
    ensures Put(w, ModuleEntry).outcome == Failed(WriteFailed(ModulePath))
    ensures Put(w, ModuleEntry).world.disk == w.disk
  {
    assert Parent(ModulePath) == ["app"];
    PutStep(w, ModuleEntry);
  }

  /**
   * createCSS creates app/Components/Blocks when it is missing: with no
   * regular file on the way, the file is created and its directory exists.
   */
  lemma CssMakesItsDirectory(w: World)
    requires Filesystem.Valid(w.disk)
    requires !Exists(w.disk, CssPath) && Ancestors(Parent(CssPath)) !! w.disk.files.Keys
    ensures Put(w, CssEntry).outcome == Created
    ensures Put(w, CssEntry).world.disk.files[CssPath] == Written(Sources.CssBlock)
    ensures IsDir(Put(w, CssEntry).world.disk, ["app", "Components", "Blocks"])
  {
    PutStep(w, CssEntry);
    assert Parent(CssPath) == ["app", "Components", "Blocks"];
    assert Parent(CssPath) in Ancestors(Parent(CssPath));
  }

  /**
   * downloadVue writes what the fetch returned, or the empty string when it
   * failed; and it starts the fetch exactly when the file is missing and its
   * directory can be made.
   */
  lemma DownloadVueWrites(w: World, fetched: Option<string>)
    requires Filesystem.Valid(w.disk)
    ensures var r := Put(w, VueEntry(fetched));
      && w.log <= r.world.log
      && (r.outcome == Created ==>
            && r.world.disk.files[VuePath] == Text(if fetched.Some? then fetched.value else "")
            && r.world.log == w.log + [Info("Download Vue from " + VueUrl), Fetch(VueUrl)])
      && (Fetch(VueUrl) in r.world.log[|w.log|..] <==>
            !Exists(w.disk, VuePath) && Ancestors(Parent(VuePath)) !! w.disk.files.Keys)
  {
    PutStep(w, VueEntry(fetched));
    var r := Put(w, VueEntry(fetched));
    if r.outcome == Created {
      assert r.world.log[|w.log|..] == VueEntry(fetched).announce;
      assert r.world.log[|w.log|..][1] == Fetch(VueUrl);
    } else {
      assert r.world.log[|w.log|..] == [];
    }
  }

  /**
   * module.json, which createModule writes, lists as its assets exactly the
   * files the four component steps write, relative to the directory holding
   * module.json.
   */
  lemma ModuleJsonListsComponents()
    ensures ModuleEntry.content == Generated(ModuleJson)
    ensures Member(Document(ModuleJson), "assets") ==
      Arr([Str(Join(CssEntry.path[1..])), Str(Join(IndexPageEntry.path[1..])),
           Str(Join(IndexPageModelEntry.path[1..])), Str(Join(ModuleDescriptionEntry.path[1..]))])
    ensures forall e :: e in [CssEntry, IndexPageEntry, IndexPageModelEntry, ModuleDescriptionEntry] ==>
      e.path[..1] == Parent(ModuleEntry.path) && e.content.Written?
  {
    ModuleAssetsAreComponentFiles();
    assert ComponentPaths[0] == CssEntry.path;
    assert ComponentPaths[1] == IndexPageEntry.path;
    assert ComponentPaths[2] == IndexPageModelEntry.path;
    assert ComponentPaths[3] == ModuleDescriptionEntry.path;
  }

  /** The paths the create steps of a plan write. */
  function Paths(steps: Plan): set<Path>
    decreases steps
  {
    match steps
    case Done => {}
    case Then(CreateStep(e), rest) => {e.path} + Paths(rest)
    case Then(DownloadStep, rest) => {VuePath} + Paths(rest)
    case Then(PublishStep, rest) => Paths(rest)
  }

  /** What the publish steps of a plan emit, in order. */
  function PublishLog(steps: Plan): seq<Event>
    decreases steps
  {
    match steps
    case Done => []
    case Then(PublishStep, rest) => PublishEvents + PublishLog(rest)
    case Then(_, rest) => PublishLog(rest)
  }

  /**
   * From `w` to `w'` the tree stays well formed, files and directories are
   * created but never removed or altered, and the log is only appended to.
   */
  ghost predicate Grows(w: World, w': World) {
    && Filesystem.Valid(w'.disk)
    && w.disk.dirs <= w'.disk.dirs
    && (forall p :: p in w.disk.files ==> p in w'.disk.files && w'.disk.files[p] == w.disk.files[p])
    && w.log <= w'.log
  }

  lemma GrowsTrans(w0: World, w1: World, w2: World)
    requires Grows(w0, w1) && Grows(w1, w2)
    ensures Grows(w0, w2)
  {
  }

  lemma PutGrows(w: World, e: Entry)
    requires Filesystem.Valid(w.disk)
    ensures Grows(w, Put(w, e).world)
  {
    PutStep(w, e);
  }

  /** A run on a well-formed tree only grows it. */
  lemma {:induction false} RunGrows(w: World, steps: Plan, fetched: Option<string>)
    requires Filesystem.Valid(w.disk)
    ensures Grows(w, RunSteps(w, steps, fetched).world)
    decreases steps
  {
    match steps
    case Done =>
    case Then(PublishStep, rest) =>
      RunGrows(Published(w), rest, fetched);
      GrowsTrans(w, Published(w), RunSteps(w, steps, fetched).world);
    case Then(step, rest) =>
      var r := Put(w, Target(step, fetched));
      PutGrows(w, Target(step, fetched));
      if !r.outcome.Failed? {
        RunGrows(r.world, rest, fetched);
        GrowsTrans(w, r.world, RunSteps(w, steps, fetched).world);
      }
  }

  /** A run creates files only at the destinations of its steps. */
  lemma {:induction false} RunFrame(w: World, steps: Plan, fetched: Option<string>)
    requires Filesystem.Valid(w.disk)
    ensures RunSteps(w, steps, fetched).world.disk.files.Keys <= w.disk.files.Keys + Paths(steps)
    decreases steps
  {
    match steps
    case Done =>
    case Then(PublishStep, rest) =>
      RunFrame(Published(w), rest, fetched);
    case Then(step, rest) =>
      var e := Target(step, fetched);
      PutStep(w, e);
      var r := Put(w, e);
      if !r.outcome.Failed? {
        RunFrame(r.world, rest, fetched);
      }
  }

  /** The destinations of `handle`'s plan, and of its steps after project.json. */
  lemma HandlePaths()
    ensures Paths(HandlePlan.rest) == {ModulePath, CssPath, IndexPagePath, IndexPageModelPath,
                                       ModuleDescriptionPath, VuePath}
    ensures Paths(HandlePlan) == {ProjectPath} + Paths(HandlePlan.rest)
  {
  }

  /** A run that completes leaves every path its create steps name in place. */
  lemma {:induction false} CompletedRunCreatesAll(w: World, steps: Plan, fetched: Option<string>)
    requires Filesystem.Valid(w.disk)
    ensures var r := RunSteps(w, steps, fetched);
      r.run.Completed? ==> forall p :: p in Paths(steps) ==> Exists(r.world.disk, p)
    decreases steps
  {
    match steps
    case Done =>
    case Then(PublishStep, rest) =>
      CompletedRunCreatesAll(Published(w), rest, fetched);
    case Then(step, rest) =>
      var e := Target(step, fetched);
      PutStep(w, e);
      var r := Put(w, e);
      if !r.outcome.Failed? {
        assert Exists(r.world.disk, e.path);
        CompletedRunCreatesAll(r.world, rest, fetched);
        RunGrows(r.world, rest, fetched);
      }
  }

  /**
   * When every path of a plan is already in place, running it skips every
   * create step and the download: the disk is unchanged and only the publish
   * steps emit.
   */
  lemma {:induction false} RerunOnlyPublishes(w: World, steps: Plan, fetched: Option<string>)
    requires forall p :: p in Paths(steps) ==> Exists(w.disk, p)
    ensures RunSteps(w, steps, fetched) == RunResult(World(w.disk, w.log + PublishLog(steps)), Completed)
    decreases steps
  {
    match steps
    case Done =>
      assert w.log + [] == w.log;
    case Then(PublishStep, rest) =>
      RerunOnlyPublishes(Published(w), rest, fetched);
      assert w.log + PublishEvents + PublishLog(rest) == w.log + (PublishEvents + PublishLog(rest));
    case Then(step, rest) =>
      RerunOnlyPublishes(w, rest, fetched);
  }

  /** `handle`'s plan publishes once. */
  lemma PlanPublishesOnce()
    ensures PublishLog(HandlePlan) == PublishEvents
  {
    assert PublishLog(HandlePlan.rest.rest.rest.rest.rest.rest) == PublishEvents;
  }

  /**
   * `handle` run a second time after a first run that completed: the second
   * run completes too, leaves the disk exactly as the first left it, and adds
   * only the banner and one more forced publish to the log, whatever its
   * fetch would have returned.
   */
  lemma HandleTwice(w: World, fetched: Option<string>, refetched: Option<string>)
    requires Filesystem.Valid(w.disk)
    ensures var first := RunSteps(World(w.disk, w.log + Banner), HandlePlan, fetched);
      first.run.Completed? ==>
        RunSteps(World(first.world.disk, first.world.log + Banner), HandlePlan, refetched)
          == RunResult(World(first.world.disk, first.world.log + Banner + PublishEvents), Completed)
  {
    var first := RunSteps(World(w.disk, w.log + Banner), HandlePlan, fetched);
    if first.run.Completed? {
      CompletedRunCreatesAll(World(w.disk, w.log + Banner), HandlePlan, fetched);
      PlanPublishesOnce();
      RerunOnlyPublishes(World(first.world.disk, first.world.log + Banner), HandlePlan, refetched);
    }
  }

  /**
   * Whether a step fails depends only on the disk, its destination and
   * whether it makes its parent, not on the log and not on what it would
   * write: repeated on the disk a failure left, a step fails again, in the
   * same way, and again leaves the disk alone.
   */
  lemma PutFailsAlike(w: World, w2: World, e: Entry, e2: Entry)
    requires Filesystem.Valid(w.disk) && Put(w, e).outcome.Failed?
    requires w2.disk == Put(w, e).world.disk && e.path == e2.path && e.makeParent == e2.makeParent
    ensures Put(w2, e2).outcome == Put(w, e).outcome
    ensures Put(w2, e2).world.disk == w2.disk
  {
    PutStep(w, e);
    PutStep(w2, e2);
  }

  /**
   * A run of steps repeated on the disk an earlier run of the same steps
   * left, completed or aborted, with any log and any fetch: the repeat
   * changes nothing on disk and ends exactly as the earlier run ended (with
   * the same error when it aborted).
   */
  lemma {:induction false} RerunSameDisk(w: World, w2: World, steps: Plan,
                                         fetched: Option<string>, refetched: Option<string>)
    requires Filesystem.Valid(w.disk)
    requires w2.disk == RunSteps(w, steps, fetched).world.disk
    ensures RunSteps(w2, steps, refetched).world.disk == w2.disk
    ensures RunSteps(w2, steps, refetched).run == RunSteps(w, steps, fetched).run
    decreases steps
  {
    match steps
    case Done =>
    case Then(PublishStep, rest) =>
      RerunSameDisk(Published(w), Published(w2), rest, fetched, refetched);
    case Then(step, rest) =>
      var e, e2 := Target(step, fetched), Target(step, refetched);
      var r := Put(w, e);
      if r.outcome.Failed? {
        PutFailsAlike(w, w2, e, e2);
      } else {
        SkippedLater(w, e, rest, fetched, w2, e2);
        PutStep(w, e);
        RerunSameDisk(r.world, w2, rest, fetched, refetched);
      }
  }

  /**
   * A step that did not fail has put its destination in place for good: on
   * any disk a later run leaves, the same destination is skipped.
   */
  lemma SkippedLater(w: World, e: Entry, rest: Plan, fetched: Option<string>, w2: World, e2: Entry)
    requires Filesystem.Valid(w.disk) && !Put(w, e).outcome.Failed? && e2.path == e.path
    requires w2.disk == RunSteps(Put(w, e).world, rest, fetched).world.disk
    ensures Put(w2, e2) == StepResult(Skipped, w2)
  {
    PutStep(w, e);
    RunGrows(Put(w, e).world, rest, fetched);
    assert Exists(Put(w, e).world.disk, e.path);
  }

  /**
   * `handle` run a second time after any first run, completed or aborted:
   * the second run leaves the disk as the first left it and ends as the
   * first ended, whatever its fetch would have returned.
   */
  lemma HandleRerunSameDisk(w: World, fetched: Option<string>, refetched: Option<string>)
    requires Filesystem.Valid(w.disk)
    ensures var first := RunSteps(World(w.disk, w.log + Banner), HandlePlan, fetched);
      var second := RunSteps(World(first.world.disk, first.world.log + Banner), HandlePlan, refetched);
      second.world.disk == first.world.disk && second.run == first.run
  {
    var first := RunSteps(World(w.disk, w.log + Banner), HandlePlan, fetched);
    RerunSameDisk(World(w.disk, w.log + Banner), World(first.world.disk, first.world.log + Banner),
                  HandlePlan, fetched, refetched);
  }

  /** Neither of two paths is the other or lies on the way to the other's parent. */
  predicate Apart(p: Path, q: Path) {
    p != q && p !in Ancestors(Parent(q)) && q !in Ancestors(Parent(p))
  }

  /** Two paths that differ in some component are apart. */
  lemma ApartAt(p: Path, q: Path, k: nat)
    requires k < |p| && k < |q| && p[k] != q[k]
    ensures Apart(p, q)
  {
    AncestorsArePrefixes(Parent(q), p);
    AncestorsArePrefixes(Parent(p), q);
    assert |p| <= |Parent(q)| ==> Parent(q)[..|p|][k] == q[k];
    assert |q| <= |Parent(p)| ==> Parent(p)[..|q|][k] == p[k];
  }

  /**
   * The destination of a create step or the download; it, and whether the
   * step makes its parent, do not depend on the fetch.
   */
  function Dest(step: Step): (e: Entry)
    requires !step.PublishStep?
    ensures forall fetched :: Target(step, fetched).path == e.path && Target(step, fetched).makeParent == e.makeParent
  {
    Target(step, None)
  }

  /** `p` is apart from every destination of a plan. */
  predicate ApartFromPlan(p: Path, steps: Plan)
    decreases steps
  {
    match steps
    case Done => true
    case Then(PublishStep, rest) => ApartFromPlan(p, rest)
    case Then(step, rest) => Apart(p, Dest(step).path) && ApartFromPlan(p, rest)
  }

  /** No two destinations of a plan get in each other's way. */
  predicate Separated(steps: Plan)
    decreases steps
  {
    match steps
    case Done => true
    case Then(PublishStep, rest) => Separated(rest)
    case Then(step, rest) => ApartFromPlan(Dest(step).path, rest) && Separated(rest)
  }

  /** On `d`, every destination of a plan is missing and could be created. */
  predicate Ready(d: Disk, steps: Plan)
    decreases steps
  {
    match steps
    case Done => true
    case Then(PublishStep, rest) => Ready(d, rest)
    case Then(step, rest) => !Exists(d, Dest(step).path) && CanCreate(d, Dest(step)) && Ready(d, rest)
  }

  /** On `d`, every destination of a plan holds what its step writes. */
  predicate Holds(d: Disk, steps: Plan, fetched: Option<string>)
    decreases steps
  {
    match steps
    case Done => true
    case Then(PublishStep, rest) => Holds(d, rest, fetched)
    case Then(step, rest) =>
      && Target(step, fetched).path in d.files
      && d.files[Target(step, fetched).path] == Target(step, fetched).content
      && Holds(d, rest, fetched)
  }

  /** Creating a file apart from every destination of a plan keeps the plan ready. */
  lemma {:induction false} ReadyKept(w: World, e: Entry, steps: Plan)
    requires Filesystem.Valid(w.disk) && !Exists(w.disk, e.path) && CanCreate(w.disk, e)
    requires Ready(w.disk, steps) && ApartFromPlan(e.path, steps)
    ensures Ready(Put(w, e).world.disk, steps)
    decreases steps
  {
    PutStep(w, e);
    match steps
    case Done =>
    case Then(PublishStep, rest) =>
      ReadyKept(w, e, rest);
    case Then(step, rest) =>
      ReadyKept(w, e, rest);
  }

  /** Files already in place stay as they are through a run. */
  lemma {:induction false} HoldsKept(d: Disk, d': Disk, steps: Plan, fetched: Option<string>)
    requires forall p :: p in d.files ==> p in d'.files && d'.files[p] == d.files[p]
    requires Holds(d, steps, fetched)
    ensures Holds(d', steps, fetched)
    decreases steps
  {
    match steps
    case Done =>
    case Then(PublishStep, rest) =>
      HoldsKept(d, d', rest, fetched);
    case Then(step, rest) =>
      HoldsKept(d, d', rest, fetched);
  }

  /**
   * A plan whose destinations are all missing, can all be created and stay
   * out of each other's way completes, and every destination then holds what
   * its step writes.
   */
  lemma {:induction false} ReadyRunCompletes(w: World, steps: Plan, fetched: Option<string>)
    requires Filesystem.Valid(w.disk) && Ready(w.disk, steps) && Separated(steps)
    ensures RunSteps(w, steps, fetched).run == Completed
    ensures Holds(RunSteps(w, steps, fetched).world.disk, steps, fetched)
    decreases steps
  {
    match steps
    case Done =>
    case Then(PublishStep, rest) =>
      ReadyRunCompletes(Published(w), rest, fetched);
    case Then(step, rest) =>
      var e := Target(step, fetched);
      PutStep(w, e);
      var r := Put(w, e);
      assert r.outcome == Created;
      ReadyKept(w, e, rest);
      ReadyRunCompletes(r.world, rest, fetched);
      RunGrows(r.world, rest, fetched);
  }

  /** The seven paths `handle` creates lie out of each other's way. */
  lemma HandlePlanSeparated()
    ensures Separated(HandlePlan)
  {
    ProjectApart();
    ModuleApart();
    CssApart();
    IndexPageApart();
    IndexPageModelApart();
    ModuleDescriptionApart();
  }

  lemma ProjectApart()
    ensures ApartFromPlan(ProjectPath, HandlePlan.rest)
  {
    ApartAt(ProjectPath, ModulePath, 0);
    ApartAt(ProjectPath, CssPath, 0);
    ApartAt(ProjectPath, IndexPagePath, 0);
    ApartAt(ProjectPath, IndexPageModelPath, 0);
    ApartAt(ProjectPath, ModuleDescriptionPath, 0);
    ApartAt(ProjectPath, VuePath, 0);
    assert ApartFromPlan(ProjectPath, HandlePlan.rest.rest.rest.rest.rest.rest.rest);
    assert ApartFromPlan(ProjectPath, HandlePlan.rest.rest.rest.rest.rest.rest);
    assert ApartFromPlan(ProjectPath, HandlePlan.rest.rest.rest.rest.rest);
    assert ApartFromPlan(ProjectPath, HandlePlan.rest.rest.rest.rest);
    assert ApartFromPlan(ProjectPath, HandlePlan.rest.rest.rest);
    assert ApartFromPlan(ProjectPath, HandlePlan.rest.rest);
  }

  lemma ModuleApart()
    ensures ApartFromPlan(ModulePath, HandlePlan.rest.rest)
  {
    ApartAt(ModulePath, CssPath, 1);
    ApartAt(ModulePath, IndexPagePath, 1);
    ApartAt(ModulePath, IndexPageModelPath, 1);
    ApartAt(ModulePath, ModuleDescriptionPath, 1);
    ApartAt(ModulePath, VuePath, 0);
    assert ApartFromPlan(ModulePath, HandlePlan.rest.rest.rest.rest.rest.rest.rest);
    assert ApartFromPlan(ModulePath, HandlePlan.rest.rest.rest.rest.rest.rest);
    assert ApartFromPlan(ModulePath, HandlePlan.rest.rest.rest.rest.rest);
    assert ApartFromPlan(ModulePath, HandlePlan.rest.rest.rest.rest);
    assert ApartFromPlan(ModulePath, HandlePlan.rest.rest.rest);
  }

  lemma CssApart()
    ensures ApartFromPlan(CssPath, HandlePlan.rest.rest.rest)
  {
    ApartAt(CssPath, IndexPagePath, 2);
    ApartAt(CssPath, IndexPageModelPath, 2);
    ApartAt(CssPath, ModuleDescriptionPath, 1);
    ApartAt(CssPath, VuePath, 0);
    assert ApartFromPlan(CssPath, HandlePlan.rest.rest.rest.rest.rest.rest.rest);
    assert ApartFromPlan(CssPath, HandlePlan.rest.rest.rest.rest.rest.rest);
    assert ApartFromPlan(CssPath, HandlePlan.rest.rest.rest.rest.rest);
    assert ApartFromPlan(CssPath, HandlePlan.rest.rest.rest.rest);
  }

  lemma IndexPageApart()
    ensures ApartFromPlan(IndexPagePath, HandlePlan.rest.rest.rest.rest)
  {
    ApartAt(IndexPagePath, IndexPageModelPath, 4);
    ApartAt(IndexPagePath, ModuleDescriptionPath, 1);
    ApartAt(IndexPagePath, VuePath, 0);
    assert ApartFromPlan(IndexPagePath, HandlePlan.rest.rest.rest.rest.rest.rest.rest);
    assert ApartFromPlan(IndexPagePath, HandlePlan.rest.rest.rest.rest.rest.rest);
    assert ApartFromPlan(IndexPagePath, HandlePlan.rest.rest.rest.rest.rest);
  }

  lemma IndexPageModelApart()
    ensures ApartFromPlan(IndexPageModelPath, HandlePlan.rest.rest.rest.rest.rest)
  {
    ApartAt(IndexPageModelPath, ModuleDescriptionPath, 1);
    ApartAt(IndexPageModelPath, VuePath, 0);
    assert ApartFromPlan(IndexPageModelPath, HandlePlan.rest.rest.rest.rest.rest.rest.rest);
    assert ApartFromPlan(IndexPageModelPath, HandlePlan.rest.rest.rest.rest.rest.rest);
  }

  lemma ModuleDescriptionApart()
    ensures ApartFromPlan(ModuleDescriptionPath, HandlePlan.rest.rest.rest.rest.rest.rest)
  {
    ApartAt(ModuleDescriptionPath, VuePath, 0);
    assert ApartFromPlan(ModuleDescriptionPath, HandlePlan.rest.rest.rest.rest.rest.rest.rest);
  }

  /**
   * When `handle` completes: on a well-formed tree where app/ is a
   * directory, none of the seven files exists and no regular file lies on
   * the way to any of them, `handle` completes and each file then holds what
   * its step writes.
   */
  lemma HandleCompletes(w: World, fetched: Option<string>)
    requires Filesystem.Valid(w.disk) && IsDir(w.disk, ["app"])
    requires Fresh(w.disk, ProjectPath) && Fresh(w.disk, ModulePath) && Fresh(w.disk, CssPath)
      && Fresh(w.disk, IndexPagePath) && Fresh(w.disk, IndexPageModelPath)
      && Fresh(w.disk, ModuleDescriptionPath) && Fresh(w.disk, VuePath)
    ensures var r := RunSteps(World(w.disk, w.log + Banner), HandlePlan, fetched);
      && r.run == Completed
      && r.world.disk.files.Keys == w.disk.files.Keys + {ProjectPath, ModulePath, CssPath, IndexPagePath,
                                                         IndexPageModelPath, ModuleDescriptionPath, VuePath}
      && r.world.disk.files[ProjectPath] == Generated(ProjectJson)
      && r.world.disk.files[ModulePath] == Generated(ModuleJson)
      && r.world.disk.files[CssPath] == Written(CssBlock)
      && r.world.disk.files[IndexPagePath] == Written(IndexPageComponent)
      && r.world.disk.files[IndexPageModelPath] == Written(IndexPageModelClass)
      && r.world.disk.files[ModuleDescriptionPath] == Written(ModuleDescriptionClass)
      && r.world.disk.files[VuePath] == Text(fetched.GetOr(""))
  {
    HandleReady(w.disk);
    HandlePlanSeparated();
    var r := RunSteps(World(w.disk, w.log + Banner), HandlePlan, fetched);
    ReadyRunCompletes(World(w.disk, w.log + Banner), HandlePlan, fetched);
    HandleHolds(r.world.disk, fetched);
    RunFrame(World(w.disk, w.log + Banner), HandlePlan, fetched);
    HandlePaths();
  }

  /**
   * `handle` on a project that already has its project.json, and otherwise
   * meets the condition of `HandleCompletes`: it completes, project.json
   * keeps its content, and the other six files are created, holding what
   * their steps write, and are the only new files.
   */
  lemma HandleKeepsProject(w: World, fetched: Option<string>)
    requires Filesystem.Valid(w.disk) && IsDir(w.disk, ["app"]) && ProjectPath in w.disk.files
    requires Fresh(w.disk, ModulePath) && Fresh(w.disk, CssPath) && Fresh(w.disk, IndexPagePath)
      && Fresh(w.disk, IndexPageModelPath) && Fresh(w.disk, ModuleDescriptionPath) && Fresh(w.disk, VuePath)
    ensures var r := RunSteps(World(w.disk, w.log + Banner), HandlePlan, fetched);
      && r.run == Completed
      && r.world.disk.files.Keys == w.disk.files.Keys + {ModulePath, CssPath, IndexPagePath, IndexPageModelPath,
                                                         ModuleDescriptionPath, VuePath}
      && r.world.disk.files[ProjectPath] == w.disk.files[ProjectPath]
      && r.world.disk.files[ModulePath] == Generated(ModuleJson)
      && r.world.disk.files[CssPath] == Written(CssBlock)
      && r.world.disk.files[IndexPagePath] == Written(IndexPageComponent)
      && r.world.disk.files[IndexPageModelPath] == Written(IndexPageModelClass)
      && r.world.disk.files[ModuleDescriptionPath] == Written(ModuleDescriptionClass)
      && r.world.disk.files[VuePath] == Text(fetched.GetOr(""))
  {
    var w0 := World(w.disk, w.log + Banner);
    SkipsProject(w0, fetched);
    ReadyAfterProject(w.disk);
    var r := RunSteps(w0, HandlePlan.rest, fetched);
    ReadyRunCompletes(w0, HandlePlan.rest, fetched);
    HandleRestHolds(r.world.disk, fetched);
    RunGrows(w0, HandlePlan.rest, fetched);
    RunFrame(w0, HandlePlan.rest, fetched);
    HandlePaths();
  }

  /** With something at project.json already, `handle`'s run is the run of its later steps. */
  lemma SkipsProject(w: World, fetched: Option<string>)
    requires Exists(w.disk, ProjectPath)
    ensures RunSteps(w, HandlePlan, fetched) == RunSteps(w, HandlePlan.rest, fetched)
  {
    assert Put(w, ProjectEntry) == StepResult(Skipped, w);
  }

  /** The condition of `HandleKeepsProject` makes the steps after project.json ready. */
  lemma ReadyAfterProject(d: Disk)
    requires IsDir(d, ["app"])
    requires Fresh(d, ModulePath) && Fresh(d, CssPath) && Fresh(d, IndexPagePath)
      && Fresh(d, IndexPageModelPath) && Fresh(d, ModuleDescriptionPath) && Fresh(d, VuePath)
    ensures Ready(d, HandlePlan.rest) && Separated(HandlePlan.rest)
  {
    ReadyComponents(d);
    assert Parent(ModulePath) == ["app"];
    HandlePlanSeparated();
  }

  /**
   * On a tree holding only app/ and a project.json with any content,
   * `handle` keeps that content and adds exactly the other six files.
   */
  lemma HandleKeepsProjectOnApp(x: Blob, log: seq<Event>, fetched: Option<string>)
    ensures var r := RunSteps(World(Disk(map[ProjectPath := x], {[], ["app"]}), log + Banner), HandlePlan, fetched);
      && r.run == Completed
      && r.world.disk.files.Keys == {ProjectPath, ModulePath, CssPath, IndexPagePath, IndexPageModelPath,
                                     ModuleDescriptionPath, VuePath}
      && r.world.disk.files[ProjectPath] == x
      && r.world.disk.files[ModulePath] == Generated(ModuleJson)
      && r.world.disk.files[VuePath] == Text(fetched.GetOr(""))
  {
    ProjectOnAppMeets(x);
    HandleKeepsProject(World(Disk(map[ProjectPath := x], {[], ["app"]}), log), fetched);
  }

  /** The tree of `HandleKeepsProjectOnApp` meets the condition of `HandleKeepsProject`. */
  lemma ProjectOnAppMeets(x: Blob)
    ensures var d := Disk(map[ProjectPath := x], {[], ["app"]});
      && Filesystem.Valid(d) && IsDir(d, ["app"]) && ProjectPath in d.files && d.files.Keys == {ProjectPath}
      && Fresh(d, ModulePath) && Fresh(d, CssPath) && Fresh(d, IndexPagePath)
      && Fresh(d, IndexPageModelPath) && Fresh(d, ModuleDescriptionPath) && Fresh(d, VuePath)
  {
    ProjectOnAppValid(x);
    ProjectApartFromRest();
    FreshBesideProject(x, ModulePath);
    FreshBesideProject(x, CssPath);
    FreshBesideProject(x, IndexPagePath);
    FreshBesideProject(x, IndexPageModelPath);
    FreshBesideProject(x, ModuleDescriptionPath);
    FreshBesideProject(x, VuePath);
  }

  /** A path other than project.json, not on the way through it, is fresh on that tree. */
  lemma FreshBesideProject(x: Blob, p: Path)
    requires p != ProjectPath && p != [] && p != ["app"] && ProjectPath !in Ancestors(Parent(p))
    ensures Fresh(Disk(map[ProjectPath := x], {[], ["app"]}), p)
  {
  }

  lemma ProjectOnAppValid(x: Blob)
    ensures var d := Disk(map[ProjectPath := x], {[], ["app"]});
      Filesystem.Valid(d) && d.files.Keys == {ProjectPath}
  {
    assert Ancestors(["app"]) == {[], ["app"]} by {
      assert Parent(["app"]) == [];
    }
    assert Parent(ProjectPath) == [];
  }

  /** project.json lies on the way to none of the other six files. */
  lemma ProjectApartFromRest()
    ensures ProjectPath !in Ancestors(Parent(ModulePath)) && ProjectPath !in Ancestors(Parent(CssPath))
    ensures ProjectPath !in Ancestors(Parent(IndexPagePath)) && ProjectPath !in Ancestors(Parent(IndexPageModelPath))
    ensures ProjectPath !in Ancestors(Parent(ModuleDescriptionPath)) && ProjectPath !in Ancestors(Parent(VuePath))
    ensures ProjectPath != [] && Parent(ProjectPath) == []
  {
    ApartAt(ProjectPath, ModulePath, 0);
    ApartAt(ProjectPath, CssPath, 0);
    ApartAt(ProjectPath, IndexPagePath, 0);
    ApartAt(ProjectPath, IndexPageModelPath, 0);
    ApartAt(ProjectPath, ModuleDescriptionPath, 0);
    ApartAt(ProjectPath, VuePath, 0);
  }

  /** `p` is missing and no regular file lies on the way to it. */
  predicate Fresh(d: Disk, p: Path) {
    !Exists(d, p) && Ancestors(Parent(p)) !! d.files.Keys
  }

  /** The condition of `HandleCompletes` makes `handle`'s plan ready. */
  lemma HandleReady(d: Disk)
    requires Filesystem.Valid(d) && IsDir(d, ["app"])
    requires Fresh(d, ProjectPath) && Fresh(d, ModulePath) && Fresh(d, CssPath) && Fresh(d, IndexPagePath)
      && Fresh(d, IndexPageModelPath) && Fresh(d, ModuleDescriptionPath) && Fresh(d, VuePath)
    ensures Ready(d, HandlePlan)
  {
    ReadyComponents(d);
    assert Parent(ModulePath) == ["app"];
    assert Parent(ProjectPath) == [];
  }

  /** The second half of `HandleReady`: the component steps and the download. */
  lemma ReadyComponents(d: Disk)
    requires IsDir(d, ["app"])
    requires Fresh(d, CssPath) && Fresh(d, IndexPagePath) && Fresh(d, IndexPageModelPath)
      && Fresh(d, ModuleDescriptionPath) && Fresh(d, VuePath)
    ensures Ready(d, HandlePlan.rest.rest)
  {
    assert Parent(ModuleDescriptionPath) == ["app"];
    assert Ready(d, HandlePlan.rest.rest.rest.rest.rest);
  }

  /**
   * On a tree holding only app/, as in a fresh Laravel project stripped of
   * everything the command looks at, `handle` completes and writes all
   * seven files.
   */
  lemma HandleCompletesOnBareApp(log: seq<Event>, fetched: Option<string>)
    ensures var r := RunSteps(World(Disk(map[], {[], ["app"]}), log + Banner), HandlePlan, fetched);
      && r.run == Completed
      && r.world.disk.files.Keys == {ProjectPath, ModulePath, CssPath, IndexPagePath, IndexPageModelPath,
                                     ModuleDescriptionPath, VuePath}
      && r.world.disk.files[VuePath] == Text(fetched.GetOr(""))
  {
    var d := Disk(map[], {[], ["app"]});
    assert Ancestors(["app"]) == {[], ["app"]} by {
      assert Parent(["app"]) == [];
    }
    HandleCompletes(World(d, log), fetched);
  }

  /** What `Holds` says of `handle`'s plan, file by file. */
  lemma HandleHolds(d: Disk, fetched: Option<string>)
    requires Holds(d, HandlePlan, fetched)
    ensures d.files.Keys >= {ProjectPath, ModulePath, CssPath, IndexPagePath, IndexPageModelPath,
                             ModuleDescriptionPath, VuePath}
    ensures d.files[ProjectPath] == Generated(ProjectJson)
    ensures d.files[ModulePath] == Generated(ModuleJson)
    ensures d.files[CssPath] == Written(CssBlock)
    ensures d.files[IndexPagePath] == Written(IndexPageComponent)
    ensures d.files[IndexPageModelPath] == Written(IndexPageModelClass)
    ensures d.files[ModuleDescriptionPath] == Written(ModuleDescriptionClass)
    ensures d.files[VuePath] == Text(fetched.GetOr(""))
  {
    assert Holds(d, HandlePlan.rest, fetched);
    HandleRestHolds(d, fetched);
  }

  /** What `Holds` says of `handle`'s steps after project.json, file by file. */
  lemma HandleRestHolds(d: Disk, fetched: Option<string>)
    requires Holds(d, HandlePlan.rest, fetched)
    ensures d.files.Keys >= {ModulePath, CssPath, IndexPagePath, IndexPageModelPath,
                             ModuleDescriptionPath, VuePath}
    ensures d.files[ModulePath] == Generated(ModuleJson)
    ensures d.files[CssPath] == Written(CssBlock)
    ensures d.files[IndexPagePath] == Written(IndexPageComponent)
    ensures d.files[IndexPageModelPath] == Written(IndexPageModelClass)
    ensures d.files[ModuleDescriptionPath] == Written(ModuleDescriptionClass)
    ensures d.files[VuePath] == Text(fetched.GetOr(""))
  {
    assert Holds(d, HandlePlan.rest.rest, fetched);
    assert Holds(d, HandlePlan.rest.rest.rest, fetched);
    assert Holds(d, HandlePlan.rest.rest.rest.rest, fetched);
    assert Holds(d, HandlePlan.rest.rest.rest.rest.rest, fetched);
    assert Holds(d, HandlePlan.rest.rest.rest.rest.rest.rest.rest, fetched);
  }

  /** Every `vendor:publish` call in a log passes `--force`. */
  predicate AllForced(log: seq<Event>) {
    forall i :: 0 <= i < |log| && log[i].Publish? ==> log[i].force
  }

  /** No create step of a plan emits a publish of its own (the download never does). */
  predicate QuietCreates(steps: Plan)
    decreases steps
  {
    match steps
    case Done => true
    case Then(CreateStep(e), rest) => (forall i :: 0 <= i < |e.announce| ==> !e.announce[i].Publish?) && QuietCreates(rest)
    case Then(_, rest) => QuietCreates(rest)
  }

  lemma AllForcedAppend(a: seq<Event>, b: seq<Event>)
    requires AllForced(a) && AllForced(b)
    ensures AllForced(a + b)
  {
    forall i | 0 <= i < |a + b| && (a + b)[i].Publish? ensures (a + b)[i].force {
      if i >= |a| {
        assert (a + b)[i] == b[i - |a|];
      }
    }
  }

  /** `handle`'s create steps only announce themselves. */
  lemma PlanIsQuiet()
    ensures QuietCreates(HandlePlan)
  {
  }

  /** A run of quiet create steps and publishes only ever logs forced publishes. */
  lemma {:induction false} RunForced(w: World, steps: Plan, fetched: Option<string>)
    requires Filesystem.Valid(w.disk) && QuietCreates(steps) && AllForced(w.log)
    ensures AllForced(RunSteps(w, steps, fetched).world.log)
    decreases steps
  {
    match steps
    case Done =>
    case Then(PublishStep, rest) =>
      AllForcedAppend(w.log, PublishEvents);
      RunForced(Published(w), rest, fetched);
    case Then(step, rest) =>
      var e := Target(step, fetched);
      PutStep(w, e);
      AllForcedAppend(w.log, e.announce);
      var r := Put(w, e);
      if !r.outcome.Failed? {
        RunForced(r.world, rest, fetched);
      }
  }

  /** `publishAssets` is always forced: every publish `handle` logs passes `--force`. */
  lemma HandlePublishesForced(w: World, fetched: Option<string>)
    requires Filesystem.Valid(w.disk) && AllForced(w.log)
    ensures AllForced(RunSteps(World(w.disk, w.log + Banner), HandlePlan, fetched).world.log)
  {
    AllForcedAppend(w.log, Banner);
    PlanIsQuiet();
    RunForced(World(w.disk, w.log + Banner), HandlePlan, fetched);
  }

  /**
   * changeComposer touches composer.json and nothing else: no directory and
   * no other file changes, no file appears, and without a regular
   * composer.json the world is left as it is.
   */
  lemma ComposerTouchesOnlyComposer(w: World, decode: Blob -> Option<Value>)
    ensures var w' := ComposerStep(w, decode);
      && w'.disk.dirs == w.disk.dirs
      && w'.disk.files.Keys == w.disk.files.Keys
      && (forall p :: p in w.disk.files && p != ComposerPath ==> w'.disk.files[p] == w.disk.files[p])
      && (ComposerPath !in w.disk.files ==> w' == w)
  {
  }

  /**
   * changeComposer is idempotent when `json_decode` reads back what
   * `json_encode` wrote as PHP does, objects keyed "0", "1", ... (the empty
   * one among them) turned into lists: a second run finds the directory
   * listed and leaves everything alone.
   */
  lemma ComposerIdempotent(w: World, decode: Blob -> Option<Value>)
    requires forall v :: decode(Encoded(v)) == Some(Canon(v))
    ensures ComposerStep(ComposerStep(w, decode), decode) == ComposerStep(w, decode)
  {
    var decoded := ReadComposer(w.disk, decode);
    var w' := ComposerStep(w, decode);
    if Change(decoded).Rewrite? {
      IdempotentUpToCanon(decoded);
      assert ReadComposer(w'.disk, decode) == Some(Canon(Change(decoded).doc));
    }
  }
}
