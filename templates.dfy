/**
 * The fixed things the init command writes: where each file goes, the two
 * JSON manifests as decoded values, and the four component sources verbatim.
 */
module Templates {
  import opened Json
  import opened Filesystem
  import opened Sources
  import opened Spelling

  const ProjectPath: Path := ["project.json"]
  const ModulePath: Path := ["app", "module.json"]
  const CssPath: Path := ["app", "Components", "Blocks", "CSS.bay"]
  const IndexPagePath: Path := ["app", "Components", "Pages", "IndexPage", "IndexPage.bay"]
  const IndexPageModelPath: Path := ["app", "Components", "Pages", "IndexPage", "IndexPageModel.bay"]
  const ModuleDescriptionPath: Path := ["app", "ModuleDescription.bay"]
  const VuePath: Path := ["public", "assets", "core", "vue.runtime.global.prod.js"]
  const ComposerPath: Path := ["composer.json"]

  /** Where the Vue runtime is fetched from. */
  const VueUrl: string := "https://unpkg.com/vue@3/dist/vue.runtime.global.prod.js"

  /** `ServiceProvider::class`, the provider whose assets `vendor:publish` copies. */
  const ServiceProviderClass: string := "Runtime\\Laravel\\ServiceProvider"

  /** The component files that module.json lists as its assets, in its order. */
  const ComponentPaths: seq<Path> := [CssPath, IndexPagePath, IndexPageModelPath, ModuleDescriptionPath]

  /** A relative path written out with "/" between its components. */
  function Join(p: Path): string {
    if p == [] then ""
    else if |p| == 1 then p[0]
    else p[0] + "/" + Join(p[1..])
  }

  /** The document of each manifest. */
  function Document(manifest: Manifest): Value {
    match manifest
    case ProjectJson => ProjectManifest()
    case ModuleJson => ModuleManifest()
  }

  /** The document encoded into project.json. */
  function ProjectManifest(): (v: Value)
    ensures v.Obj?
    ensures Keys(v.members) == ["name", "description", "license", "author", "languages", "modules", "assets", "exclude"]
  {
    Obj([
      ("name", Str("Laravel project")),
      ("description", Str("Description")),
      ("license", Str("MIT")),
      ("author", Str("")),
      ("languages", Arr([Str("php"), Str("es6")])),
      ("modules", Arr([Obj([("src", Str("./app")), ("type", Str("lib"))])])),
      ("assets", Arr([Obj([
        ("type", Str("js")),
        ("dest", Str("public/assets/app.js")),
        ("modules", Arr([Str("App")]))])])),
      ("exclude", Arr([]))
    ])
  }

  /** The document encoded into app/module.json. */
  function ModuleManifest(): (v: Value)
    ensures v.Obj?
    ensures Keys(v.members) == ["name", "assets", "src", "dest", "allow"]
  {
    Obj([
      ("name", Str("App")),
      ("assets", Arr([
        Str("Components/Blocks/CSS.bay"),
        Str("Components/Pages/IndexPage/IndexPage.bay"),
        Str("Components/Pages/IndexPage/IndexPageModel.bay"),
        Str("ModuleDescription.bay")])),
      ("src", Str("./")),
      ("dest", Obj([("php", Str("../resources/php")), ("es6", Str("../resources/es6"))])),
      ("allow", Arr([Str("\\.bay$")]))
    ])
  }

  /** `Join` of a non-empty path: its head, then "/" and the rest if there is one. */
  lemma JoinCons(head: string, rest: Path)
    ensures Join([head] + rest) == if rest == [] then head else head + "/" + Join(rest)
  {
    assert ([head] + rest)[1..] == rest;
  }

  lemma CssPathJoined()
    ensures Join(CssPath[1..]) == "Components/Blocks/CSS.bay"
  {
    assert CssPath[1..] == ["Components"] + (["Blocks"] + ["CSS.bay"]);
    JoinCons("CSS.bay", []);
    JoinCons("Blocks", ["CSS.bay"]);
    JoinCons("Components", ["Blocks"] + ["CSS.bay"]);
    CssAssetSpelled();
  }

  lemma IndexPagePathJoined()
    ensures Join(IndexPagePath[1..]) == "Components/Pages/IndexPage/IndexPage.bay"
  {
    assert IndexPagePath[1..] == ["Components"] + (["Pages"] + (["IndexPage"] + ["IndexPage.bay"]));
    JoinCons("IndexPage.bay", []);
    JoinCons("IndexPage", ["IndexPage.bay"]);
    JoinCons("Pages", ["IndexPage"] + ["IndexPage.bay"]);
    JoinCons("Components", ["Pages"] + (["IndexPage"] + ["IndexPage.bay"]));
    IndexPageAssetSpelled();
  }

  lemma IndexPageModelPathJoined()
    ensures Join(IndexPageModelPath[1..]) == "Components/Pages/IndexPage/IndexPageModel.bay"
  {
    assert IndexPageModelPath[1..] == ["Components"] + (["Pages"] + (["IndexPage"] + ["IndexPageModel.bay"]));
    JoinCons("IndexPageModel.bay", []);
    JoinCons("IndexPage", ["IndexPageModel.bay"]);
    JoinCons("Pages", ["IndexPage"] + ["IndexPageModel.bay"]);
    JoinCons("Components", ["Pages"] + (["IndexPage"] + ["IndexPageModel.bay"]));
    IndexPageModelAssetSpelled();
  }

  /**
   * The assets module.json declares are, read relative to the directory that
   * holds module.json, exactly the four component files the command writes.
   */
  lemma ModuleAssetsAreComponentFiles()
    ensures forall i :: 0 <= i < |ComponentPaths| ==> ComponentPaths[i][..1] == Parent(ModulePath)
    ensures Member(ModuleManifest(), "assets") ==
      Arr([Str(Join(CssPath[1..])), Str(Join(IndexPagePath[1..])),
           Str(Join(IndexPageModelPath[1..])), Str(Join(ModuleDescriptionPath[1..]))])
  {
    CssPathJoined();
    IndexPagePathJoined();
    IndexPageModelPathJoined();
  }
}
