/**
 * Names for the fixed contents the init command writes: the two JSON
 * manifests, and the four component sources it writes verbatim, exactly as
 * its heredocs spell them (no interpolation takes place in them).
 */
module Sources {

  /** The two manifests the command encodes; `Templates.Document` gives their documents. */
  datatype Manifest = ProjectJson | ModuleJson

  /** The four component sources the command writes verbatim. */
  datatype Source = CssBlock | IndexPageComponent | IndexPageModelClass | ModuleDescriptionClass

  /** The exact text of each source. */
  function SourceText(source: Source): string {
    match source
    case CssBlock => CssSource
    case IndexPageComponent => IndexPageSource
    case IndexPageModelClass => IndexPageModelSource
    case ModuleDescriptionClass => ModuleDescriptionSource
  }

  /** Text written to app/Components/Blocks/CSS.bay: a global stylesheet component (src/InitCommand.php:136-147). */
  const CssSource: string :=
    "<class name=\"App.Components.Blocks.CSS\">\n" +
    "\n" +
    "<style global=\"true\">\n" +
    "html, body{\n" +
    "\tpadding: 0;\n" +
    "\tmargin: 0;\n" +
    "}\n" +
    "</style>\n" +
    "\n" +
    "</class>"

  /** Text written to app/Components/Pages/IndexPage/IndexPage.bay: the page component (src/InitCommand.php:169-198). */
  const IndexPageSource: string :=
    "<class name=\"App.Components.Pages.IndexPage.IndexPage\">\n" +
    "\n" +
    "<use name=\"Runtime.Widget.Button\" component=\"true\" />\n" +
    "\n" +
    "<style>\n" +
    ".index_page{\n" +
    "\ttext-align: center;\n" +
    "\tpadding-top: 100px;\n" +
    "}\n" +
    "</style>\n" +
    "\n" +
    "<template>\n" +
    "\t<div class=\"index_page\">\n" +
    "\t\t<div>Hello {{ this.model.username }}!</div>\n" +
    "\t\t<Button @event:click=\"this.onClick()\">Click</Button>\n" +
    "\t</div>\n" +
    "</template>\n" +
    "\n" +
    "<script>\n" +
    "\n" +
    "void onClick()\n" +
    "{\n" +
    "\tthis.model.setUserName(this.model.username ~ \"!\");\n" +
    "}\n" +
    "\n" +
    "</script>\n" +
    "\n" +
    "</class>"

  /** Text written to app/Components/Pages/IndexPage/IndexPageModel.bay: the page's data model (src/InitCommand.php:220-241). */
  const IndexPageModelSource: string :=
    "namespace App.Components.Pages.IndexPage;\n" +
    "\n" +
    "use Runtime.BaseModel;\n" +
    "use App.Components.Pages.IndexPage.IndexPage;\n" +
    "\n" +
    "\n" +
    "class IndexPageModel extends BaseModel\n" +
    "{\n" +
    "\tstring component = classof IndexPage;\n" +
    "\tstring username = \"User\";\n" +
    "\t\n" +
    "\t\n" +
    "\t/**\n" +
    "\t * Set user name\n" +
    "\t */\n" +
    "\tvoid setUserName(string value)\n" +
    "\t{\n" +
    "\t\tthis.username = value;\n" +
    "\t}\n" +
    "}"

  /** Text written to app/ModuleDescription.bay: the module descriptor (src/InitCommand.php:257-305). */
  const ModuleDescriptionSource: string :=
    "namespace App;\n" +
    "\n" +
    "use Runtime.Entity.Hook;\n" +
    "use Runtime.Web.Hooks.Components;\n" +
    "use Runtime.Web.Hooks.SetupLayout;\n" +
    "\n" +
    "\n" +
    "class ModuleDescription\n" +
    "{\n" +
    "\t/**\n" +
    "\t * Returns module name\n" +
    "\t * @return string\n" +
    "\t */\n" +
    "\tpure string getModuleName() => \"App\";\n" +
    "\t\n" +
    "\t\n" +
    "\t/**\n" +
    "\t * Returns module name\n" +
    "\t * @return string\n" +
    "\t */\n" +
    "\tpure string getModuleVersion() => \"0.0.1\";\n" +
    "\t\n" +
    "\t\n" +
    "\t/**\n" +
    "\t * Returns required modules\n" +
    "\t * @return Dict<string>\n" +
    "\t */\n" +
    "\tpure Dict<string> requiredModules() =>\n" +
    "\t{\n" +
    "\t\t\"Runtime.Web\": \"*\",\n" +
    "\t\t\"Runtime.Widget\": \"*\",\n" +
    "\t};\n" +
    "\t\n" +
    "\t\n" +
    "\t/**\n" +
    "\t * Returns enities\n" +
    "\t */\n" +
    "\tpure Collection<Dict> entities() =>\n" +
    "\t[\n" +
    "\t\tComponents::hook([\n" +
    "\t\t\t\"App.Components.Blocks.CSS\",\n" +
    "\t\t]),\n" +
    "\t\tSetupLayout::hook({\n" +
    "\t\t\t\"default\": \"Runtime.BaseLayout\",\n" +
    "\t\t}),\n" +
    "\t];\n" +
    "}"
}
