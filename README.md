# baylang:init — a Dafny model of the BayLang project scaffolder

The Laravel console command `baylang:init` (`Runtime\Laravel\InitCommand`) sets up
a starter BayLang project inside a Laravel application. This is what it does:

1. It prints a banner.
2. It creates six files unless each one already exists:
   - `project.json`
   - `app/module.json`
   - the stylesheet component `app/Components/Blocks/CSS.bay`
   - the page component and its model under `app/Components/Pages/IndexPage/`
   - `app/ModuleDescription.bay`
3. It asks the framework to publish the package's assets, with `--force`.
4. It downloads the Vue runtime to `public/assets/core/` unless that file is already there.

The same class also holds `changeComposer`, which `handle` does not call. It
makes sure `composer.json` maps the `App\` namespace to `resources/php`.

The model follows the code:

- **Filesystem.** The project tree is a map from paths to file contents plus a set of directories (`Filesystem`).
  - `file_exists`, `is_dir`, a recursive `mkdir` and `file_put_contents` are functions on this tree.
  - A recursive `mkdir` fails when the directory already exists, or when one of the names on the way to it is a regular file. The steps call it only when `is_dir` is false, so together the two calls make sure the directory exists.
  - `file_put_contents` fails when there is no parent directory, or when the target is a directory.
- **A step.** Each step is a guarded write, `Init.Put`.
  - If the destination exists, it does nothing.
  - Only CSS, IndexPage, IndexPageModel and the Vue download create their parent directory.
  - The project, module and module-description steps need their directory to exist already.
  - A failed `mkdir` or write raises a PHP warning. The console framework turns it into an exception, so it ends the command: `handle` stops at the first failure.
- **The class.** `Init.InitCommand` holds the tree and the log of what the command emits. Its methods change them in place.
  - Each method is tied by its postcondition to the function on a `World` (tree plus log) that specifies it.
  - `Properties` proves what the command promises about those functions.
- **The Vue download.** The fetch is a parameter: `Some(text)` is what `@file_get_contents` returned, `None` is its `false`. `file_put_contents` writes `false` as the empty file.
- **Step order.** `handle` publishes the assets before it downloads Vue, and the model follows that order.
- **`changeComposer`.**
  - The decoder `json_decode` is a parameter.
  - PHP arrays are values, so the edits to `$content` form the pure function `Composer.Change`. `InitCommand.ChangeComposer` does the file access and logging around it.
  - `Json.Value` keeps the object `{}` apart from the list `[]`; PHP decodes both to the same empty array. `Json.Canon` is what a value becomes once `json_encode` has written it and `json_decode` has read it back: an associative array whose keys are "0", "1", ... in order, the empty one among them, comes back as a list.
  - `in_array` compares loosely. `Json.LooseEqualsText` states PHP 8's `==` between a decoded value and a string that cannot be numeric. Against "resources/php", only the same string and `true` match.

## Model

| member | source | states |
|---|---|---|
| Init.InitCommand.Handle | src/InitCommand.php:37-49 | after the banner, the command performs the plan create project, module, CSS, IndexPage, IndexPageModel, ModuleDescription, publish, download, stopping at the first failed step with that step's error |
| Init.HandleRunsSteps | src/InitCommand.php:37-49 | the call-by-call run of handle (each step's failure aborting) is the generic run of its eight-step plan |
| Init.InitCommand.PutFile | src/InitCommand.php:123-150 | a create step: skipped when the destination exists; otherwise makes the parent only when asked to and it is not a directory, announces, then writes; the new tree and log are the step function's |
| Init.InitCommand.CreateProject | src/InitCommand.php:55-86 | project.json gets the generated project manifest unless something exists there; no directory is made |
| Init.InitCommand.CreateModule | src/InitCommand.php:92-117 | app/module.json gets the generated module manifest unless something exists there; app/ is not created |
| Init.InitCommand.CreateCss | src/InitCommand.php:123-150 | CSS.bay gets the stylesheet source, app/Components/Blocks made first when it is not a directory |
| Init.InitCommand.CreateIndexPage | src/InitCommand.php:156-201 | IndexPage.bay gets the page source, its directory made first when missing |
| Init.InitCommand.CreateIndexPageModel | src/InitCommand.php:207-244 | IndexPageModel.bay gets the model source, its directory made first when missing |
| Init.InitCommand.CreateModuleDescription | src/InitCommand.php:250-308 | app/ModuleDescription.bay gets the descriptor source unless something exists there; no directory is made |
| Init.InitCommand.DownloadVue | src/InitCommand.php:314-330 | the Vue file gets what the fetch returned (empty on failure), its directory made first when missing; skipped, without fetching, when it exists |
| Init.InitCommand.PublishAssets | src/InitCommand.php:336-343 | the tree is untouched; the log gains the "Publish assets" line and a forced publish of the service provider, with no existence check |
| Init.InitCommand.ChangeComposer | src/InitCommand.php:349-384 | the edit taken is the rule applied to the decoded composer.json (none without a regular file); only a rewrite writes the file and logs the update and the autoload dump |
| Init.InitCommand.Mkdir | src/InitCommand.php:128-132 | recursive mkdir: succeeds exactly when the directory does not exist yet and no name on the way is a regular file, then adds every ancestor as a directory; a failure changes nothing |
| Init.InitCommand.FilePutContents | src/InitCommand.php:149 | the write succeeds exactly when the parent is a directory and the path is not one; only that file changes |
| Properties.PutStep | src/InitCommand.php:123-150 | a step keeps the tree well formed; it is a no-op when its destination exists; otherwise it creates the file exactly when it can, writing exactly its content and changing no other file; the new directories are the ones on the way to its parent; the log grows by the announcement; a failure leaves the disk alone |
| Properties.ModuleNeedsAppDirectory | src/InitCommand.php:92-117 | without app/, createModule fails at the write and the disk is unchanged |
| Properties.CssMakesItsDirectory | src/InitCommand.php:123-150 | with no file in the way, createCSS writes its source and leaves app/Components/Blocks a directory |
| Properties.DownloadVueWrites | src/InitCommand.php:314-330 | the download writes the fetched text or "" and logs the announcement and fetch; the fetch happens exactly when the file is missing and its directory can be made |
| Templates.ProjectManifest | src/InitCommand.php:61-83 | the project manifest is an object with the keys name, description, license, author, languages, modules, assets, exclude in that order |
| Templates.ModuleManifest | src/InitCommand.php:98-114 | the module manifest is an object with the keys name, assets, src, dest, allow in that order |
| Templates.ModuleAssetsAreComponentFiles | src/InitCommand.php:98-105 | the assets module.json lists are the paths, relative to app/, of the four component files the command writes |
| Properties.ModuleJsonListsComponents | src/InitCommand.php:98-105 | the module step writes the module manifest, whose assets are the paths of the four component steps' files relative to module.json's directory; each of those steps writes a component source under app/ |
| Init.Put | src/InitCommand.php:123-150 | one guarded step: skipped exactly when the destination exists, and then nothing changes; a created file holds the step's content and no other file changes; no file disappears and the log only grows |
| Init.RunSteps | src/InitCommand.php:37-49 | running steps in order, ending at the first failure: no file disappears and the log only grows |
| Properties.RunGrows | src/InitCommand.php:37-49 | a run of steps only adds directories and files, never alters an existing file, and only appends to the log (outside what the forced publish copies into public/assets/core, which the model does not represent) |
| Properties.RunFrame | src/InitCommand.php:37-49 | a run creates regular files only at the destinations of its steps |
| Properties.CompletedRunCreatesAll | src/InitCommand.php:37-49 | when a run completes, every path its steps name exists afterwards |
| Properties.RerunOnlyPublishes | src/InitCommand.php:37-49 | when every path of a plan exists, running it completes, changes no file, and logs only its publishes (outside what the forced publish copies into public/assets/core) |
| Properties.PlanPublishesOnce | src/InitCommand.php:47 | the plan of handle holds exactly one publish step |
| Properties.HandleTwice | src/InitCommand.php:37-49 | after a completed run, running handle again completes, leaves the disk the same (outside what the forced publish copies into public/assets/core), and adds only the banner and one more forced publish, whatever the second fetch returns |
| Properties.PutFailsAlike | src/InitCommand.php:123-150 | whether a step fails, and with which error, depends only on the disk, the destination and whether the step makes its parent; repeated on the disk a failure left, the step fails the same way and leaves the disk alone |
| Properties.RerunSameDisk | src/InitCommand.php:37-49 | a run of steps repeated on the disk an earlier run of them left, whether that run completed or aborted, leaves the disk as it is and ends the same way, with the same error when it aborted, whatever the log and the fetch |
| Properties.HandleRerunSameDisk | src/InitCommand.php:37-49 | running handle a second time after any first run leaves the disk as the first run left it (outside what the forced publish copies into public/assets/core) and completes or aborts exactly as the first did |
| Properties.ReadyRunCompletes | src/InitCommand.php:37-49 | a plan whose destinations are all missing, can all be created and do not lie on the way to one another completes, and each destination then holds what its step writes |
| Properties.HandlePlanSeparated | src/InitCommand.php:41-48 | none of the seven paths handle writes is another one or lies on the way to another one's directory |
| Properties.HandleCompletes | src/InitCommand.php:37-49 | on a well-formed tree where app/ is a directory, none of the seven files exists and no regular file lies on the way to any of them, handle completes, each of the seven files holds what its step writes (the Vue file the fetched text, or "" when the fetch failed), and they are the only new files |
| Properties.HandleCompletesOnBareApp | src/InitCommand.php:37-49 | on a tree that holds only the directory app/, handle completes and the files afterwards are exactly the six it writes and the downloaded Vue file |
| Properties.HandleKeepsProject | src/InitCommand.php:37-49 | when project.json already exists and the other six files meet the condition above, handle completes, project.json keeps its content, and exactly the other six files are created, each holding what its step writes |
| Properties.HandleKeepsProjectOnApp | src/InitCommand.php:37-49 | on a tree holding only app/ and a project.json with any content, handle keeps that content and the files afterwards are project.json and the six it creates |
| Properties.RunForced | src/InitCommand.php:336-343 | a run whose create steps emit no publish keeps every logged publish forced |
| Properties.HandlePublishesForced | src/InitCommand.php:336-343 | every publish that handle logs passes force |
| Properties.ComposerTouchesOnlyComposer | src/InitCommand.php:349-384 | changeComposer changes no directory and no file other than composer.json, creates no file, and without a regular composer.json changes nothing |
| Properties.ComposerIdempotent | src/InitCommand.php:349-384 | when json_decode reads the written file back as PHP does (Json.Canon of the written document), running changeComposer twice is the same as once |
| Composer.Change | src/InitCommand.php:351-372 | the rule changeComposer applies to the decoded document: no document or a falsy one, or a missing autoload or psr-4, is skipped; otherwise the edit is the one ChangeDoc decides |
| Composer.ChangeDoc | src/InitCommand.php:358-372 | on a truthy document: skip without psr-4; keep when the App\ list already holds the directory; otherwise the nested assignment that appends "resources/php", or Unsupported on the shapes the model does not follow |
| Composer.Assignable | src/InitCommand.php:360-362 | the shapes of psr-4 that PHP lets a string key be assigned into (an object, an empty array, false); reading any key through it agrees with isset-style reads of psr-4 itself |
| Composer.Haystack | src/InitCommand.php:366 | what in_array searches: the App\ list, the values of an associative array, or nothing when App\ was unset; a scalar has none, because PHP 8 throws a TypeError for it |
| Composer.Appendable | src/InitCommand.php:368 | `[]=` appends to a list: App\ unset, a list, or an empty array decoded as an object |
| Json.LooseEqualsText | src/InitCommand.php:366 | PHP 8's `==` between a decoded value and a string that cannot be numeric: null equals only the empty string, a bool compares with the string's truth value, an integer compares as its decimal text, strings compare byte by byte, arrays never equal it |
| Composer.MatchesOutput | src/InitCommand.php:366 | a value matches "resources/php" exactly when PHP 8's loose equality with that string holds |
| Composer.InArray | src/InitCommand.php:366 | in_array holds exactly when some element is loosely equal to "resources/php" |
| Json.Truthy | src/InitCommand.php:356 | PHP's conversion to bool: null, false, 0, "", "0" and the empty array are false, everything else true |
| Composer.RewriteShape | src/InitCommand.php:358-368 | a rewrite happens only on an object document whose autoload holds an assignable psr-4 and whose App\ list lacks the directory; the new document is the three nested assignments with "resources/php" appended |
| Composer.NestedAssign | src/InitCommand.php:362-368 | the nested assignment of a rewrite keeps the key order at the top and in autoload, adds App\ to psr-4's keys only when new, and changes the value of no other key at any level |
| Composer.SkipsIffKeysMissing | src/InitCommand.php:354-359 | the document is left alone exactly when it did not decode, is falsy, or lacks autoload or autoload.psr-4 |
| Composer.KeepsIffPresent | src/InitCommand.php:360-372 | the file is kept exactly when the App\ list (empty when unset) already holds "resources/php" as in_array compares |
| Composer.RewriteAppendsOnce | src/InitCommand.php:360-370 | on a rewrite, the old list lacked the directory, and the new App\ list is the old one with "resources/php" appended: one more occurrence |
| Composer.RewriteLeavesRestAlone | src/InitCommand.php:360-368 | in the rewritten PHP array `$content`, a rewrite keeps the keys and key order of the document and of autoload; psr-4's keys are the old ones with App\ appended when it was not among them; every other key at the three levels keeps its value |
| Composer.Idempotent | src/InitCommand.php:365-372 | the rule applied to the rewritten array `$content` keeps it as it is |
| Json.Canon | src/InitCommand.php:354-376 | a value as json_decode reads it back from what json_encode wrote: an object keyed "0", "1", ... in order, the empty object included, comes back as a list of the same length, at every depth; any other object comes back an object with the same keys in the same order; lists keep their length; scalars come back unchanged |
| Json.CanonStable | src/InitCommand.php:354-376 | a value that has been through the round trip comes back unchanged from another one |
| Composer.IdempotentUpToCanon | src/InitCommand.php:354-376 | the rule applied to the rewritten document as json_decode reads it back from the file json_encode wrote (Json.Canon of it) keeps it as it is |
| Composer.CanonAppDirs | src/InitCommand.php:354-376 | the path autoload, psr-4, App\ survives the json_encode/json_decode round trip: each level stays a non-empty object and the App\ entry read back is the round trip of the old one |
| Json.MemberCanon | src/InitCommand.php:375 | in an object whose keys are not "0", "1", ... in order, json_encode writes an object, and each member read back is the round trip of the old member |
| Json.KeyBlocksList | src/InitCommand.php:375 | an object holding a key that does not start like a number is not a list to PHP, so json_encode writes it as an object |
| Json.Assign | src/InitCommand.php:362-368 | PHP string-key assignment: the key then maps to the value and every other key keeps its value |
| Json.AssignKeys | src/InitCommand.php:362-368 | an assigned key that exists keeps its place among the keys; a new one goes last |
| Json.MemberAssign | src/InitCommand.php:362-368 | after an assignment, an isset-style read gives the new value at the key and the old value at every other key |
| Json.Lookup | src/InitCommand.php:358-360 | a key is found exactly when it is among the keys |
| Filesystem.MakeDirsValid | src/InitCommand.php:128-132 | a successful recursive mkdir keeps the tree well formed, keeps every file and directory, and makes the directory and all its ancestors directories |
| Filesystem.WriteFileValid | src/InitCommand.php:149 | a write succeeds exactly when the parent is a directory and the path is not; it keeps the tree well formed and changes only that file |
| Filesystem.AncestorsArePrefixes | src/InitCommand.php:131 | the directories a recursive mkdir visits are exactly the prefixes of the path |

## Left out

- The forced `vendor:publish` is a logged event, and the files it copies are not modelled. The service provider (src/ServiceProvider.php:115-124) publishes the package's assets into `public/assets/core`, overwriting what is there. That is the directory `downloadVue` writes into, and the publish may create it before the download checks `is_dir`. The statements that a run never alters an existing file, and that a second `handle` leaves the disk as it was, hold outside `public/assets/core` only.
- The network fetch is the parameter `fetched`. The HTTP request itself, its timeouts and its partial reads are not modelled.
- The `composer dump-autoload` process and its echoed output are one logged event.
- Console output is modelled only as a log of the `info`/`newLine` lines in order, not as the terminal's formatting.
- `json_encode` with pretty printing and unescaped slashes is not modelled as text.
  - The two manifests are stored as the tags `Generated(ProjectJson)` and `Generated(ModuleJson)`. `Templates.Document` gives their decoded documents.
  - A rewritten composer.json is stored as the decoded document `Encoded(doc)`.
- The four component sources are stored as the tags `Written(source)`. `Sources.SourceText` gives their exact text.
- `json_decode` is the parameter `decode`. Only its result is modelled, not the parser.
- Composer.RewriteLeavesRestAlone: its claim that every other key keeps its value is about the PHP array `$content` that is encoded. In the file read back, every value comes back as `Json.Canon` of itself: an empty object in an untouched part of composer.json, such as `"require-dev": {}`, is then the empty list.
- Properties.ComposerIdempotent: it assumes that `decode` reads back exactly `Json.Canon` of what was written. That is PHP's round trip for the values `Json.Value` represents, which include no floats.
- The objects `decode` returns are taken to have distinct keys, as `json_decode` produces them: when a key repeats in the text, PHP keeps its last value. `Json.Lookup` and `Json.Assign` act on the first member with a key, so on an object with a repeated key they would not agree with PHP.
- Init.InitCommand.ChangeComposer gives up with the edit `Unsupported` and leaves the file alone in these shapes, which PHP does not handle as a list of directories:
  - `autoload.psr-4` is `true`, a number or a string: PHP 8 throws on the assignment into it;
  - `autoload.psr-4` is a non-empty list: PHP adds `App\` as a string key to it, and `json_encode` then writes the list as an object with its indices as keys;
  - `App\` is a scalar: PHP 8's `in_array` throws a TypeError;
  - `App\` is a non-empty object without the directory: the append adds an integer key next to its string keys.
- `psr-4` given as `false` is handled as PHP 8 handles it: it becomes an empty array (a deprecation notice only), and the file is rewritten.
- Init.InitCommand.ChangeComposer treats a composer.json that is a directory as undecodable. PHP's `file_get_contents` warns there and would end the command.
- Init.InitCommand.ChangeComposer logs the update line after the write rather than before it. The write cannot fail at that point, and the log and the disk are separate channels, so the end state is the same.
- File permissions (`0777`), the umask, filesystem errors other than a regular file in the way, and races between the existence check and the write are not modelled.
- Integer keys and the regrouping PHP applies to numeric string keys are not modelled: every key in the JSON documents is a string.
- JSON numbers are unbounded integers (`Json.Num`). Floats, and integers beyond PHP_INT_MAX, which `json_decode` turns into floats, are not represented.
