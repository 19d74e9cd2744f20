# sylius-installer `new:plugin`, modelled in Dafny

The `new:plugin` console command of the Sylius installer creates a
Sylius plugin from the official template. It works in two phases:

- **Interactive phase.** It asks for (or takes from its options) a package
  name `vendor/name`, an author, a description and a license. It validates
  the package name (`[a-z0-9_.-]+/[a-z0-9_.-]+`, and the plugin name must
  start with `sylius` and end with `plugin`) and the author string
  (`Jane Doe <jane@example.com>`).
- **Execution phase.** It checks that the plugin folder does not exist yet
  (unless `--force` is given). It runs `composer create-project
  sylius/plugin-skeleton`, then customises the download:
  - it rewrites `composer.json` (name, authors, description, license, and
    the PSR-4 prefixes of the new namespace);
  - it replaces the template's names in every file (the content pass);
  - it renames the template's classes and files below `src/` (the rename
    pass).

  It then runs `composer dump-autoload`. Four optional steps follow, each
  behind its own yes/no question: build assets, set up an SQLite database
  (copy and rewrite `.env`), load fixtures, and start the server.

The repository holds two copies of the command: the current one
(`src/Commands/CreatePluginSkeletonCommand.php` with its
`src/Commands/BaseCommand.php`) and an older standalone one
(`src/CreatePluginSkeletonCommand.php`). They share almost all of their
code, so the model has a single set of definitions. An `Edition` value
selects the older copy's differences: the text of the "already exists"
error and the PHP 5.3.3 bypass in `isValidEmail`.

Modules, one per file:

- `Wrappers`: `Option` and `Result`, standing in for PHP's null and
  exceptions.
- `PhpStrings`: `str_replace` (one pair and arrays of pairs), `explode`,
  `implode`, `trim` and `ltrim`.
- `Underscore`: the case helpers of the Underscore library. Their
  definitions are stated assumptions.
- `PackageName`: package-name validation, the vendor/name split, and the
  folder name and namespace derived from it.
- `Environment`: the edition and the PHP runtime facts the validators
  consult.
- `Authors`: author parsing, the e-mail check, the author prompt's
  validator and `formatAuthors`.
- `Manifest`: `composer.json` as a JSON object and its rewrite.
- `FileTree`: the file store, the Finder scopes, the content pass and the
  rename pass, and the `.env` rewrite pair.
- `PluginWorkspace`: a `Workspace` class whose `files` map the
  file-changing steps update in place.
- `Process`: the shell-command helpers of `BaseCommand`.
- `Installer`: the command object, `interact`, and `execute` as a trace of
  steps.

## Model

| member | source | states |
|---|---|---|
| PackageName.ValidatePluginName | src/Commands/CreatePluginSkeletonCommand.php:344-359 | Ok exactly when the name is `vendor/name` with both sides in `[a-z0-9_.-]+`, the plugin name starts with `sylius` and ends with `plugin`. Otherwise it is the error of the first failing check, in source order: the invalid package name, a missing prefix, or a missing suffix, each with the name it reports |
| PackageName.PatternMatchesIffSplit | src/Commands/CreatePluginSkeletonCommand.php:346-348 | Checking the two sides of the first slash accepts exactly the strings that split as `vendor/name` with both sides in the package character class, which are exactly those the regular expression matches |
| PackageName.SplitIsAtFirstSlash | src/Commands/CreatePluginSkeletonCommand.php:350 | A valid package name splits uniquely: the vendor ends at the first slash and the name is everything after it |
| PackageName.ExtractVendorAndPluginName | src/Commands/CreatePluginSkeletonCommand.php:195-198 | `explode('/')`: the parts glued back with `/` give the input, there is at least one part, and a well-formed `vendor/name` gives exactly `[vendor, name]` |
| PackageName.ExplodeSplitName | src/Commands/CreatePluginSkeletonCommand.php:197 | Exploding `vendor/name` whose sides have no slash yields exactly the two sides |
| PackageName.FolderNameIsNamespaceWithoutSeparator | src/Commands/CreatePluginSkeletonCommand.php:232-235 | For a valid vendor and name, the project folder name is the namespace with its one backslash removed, and it contains neither `/` nor `\` |
| PackageName.PascalSegmentHasNoSeparator | src/Commands/CreatePluginSkeletonCommand.php:186-189 | Pascal-casing a package segment introduces no slash and no backslash |
| PackageName.PascalExampleName | tests/Unit/CreatePluginSkeletonCommandTest.php:48-57 | `sylius-product-on-demand-plugin` Pascal-cases to `SyliusProductOnDemandPlugin` |
| PackageName.IronManPackageName | tests/Unit/CreatePluginSkeletonCommandTest.php:33-42 | The unit test's name `iron-man/sylius-product-on-demand-plugin` validates and splits into `iron-man` and `sylius-product-on-demand-plugin` |
| PackageName.IronManFolderName | tests/Unit/CreatePluginSkeletonCommandTest.php:48-72 | The folder for that name is `IronManSyliusProductOnDemandPlugin`, and its source folder is that name followed by `/src/` |
| Underscore.StudlyChars | src/Commands/CreatePluginSkeletonCommand.php:188 | Every character of a Pascal-cased string comes from the input, or is the capital of an input character, and no word break survives |
| Authors.IsValidEmail | src/Commands/CreatePluginSkeletonCommand.php:395-403 | Valid when `filter_var` does not exist; otherwise `filter_var`'s verdict. The older copy also accepts everything below PHP 5.3.3 |
| Authors.LegacyEmailCheckIsWeaker | src/CreatePluginSkeletonCommand.php:467-479 | The older copy's check accepts every address the current one accepts |
| Authors.EmailChecksAgreeFromPhp533 | src/CreatePluginSkeletonCommand.php:474-476 | On PHP 5.3.3 and later the two copies' checks agree |
| Authors.AuthorShapeAtFirstBracket | src/Commands/CreatePluginSkeletonCommand.php:376 | A string of the author shape has its name group ending right before the first `<`, so the match and both groups are unique |
| Authors.ParseAuthorString | src/Commands/CreatePluginSkeletonCommand.php:374-389 | For a string of the shape `name <email>`, the result is the trimmed name and the e-mail when the e-mail passes `isValidEmail`, else the error. The shape is: name characters, a space, `<`, a non-empty address without a line feed, and a final `>`. Every other string gets the one error message |
| Authors.AuthorAnswer | src/Commands/CreatePluginSkeletonCommand.php:138-147 | The author prompt's validator: `n` and `no` become null. Any other answer succeeds exactly when it parses, and then it is stored rebuilt as `name <email>`. Its error is the parse error |
| Authors.ParsedShape | src/Commands/CreatePluginSkeletonCommand.php:374-389 | A string that parses has the author shape, its address passes `isValidEmail`, and the parsed author is the trimmed name group with that address |
| Authors.ParsesExactlyAccepted | src/Commands/CreatePluginSkeletonCommand.php:374-389 | `parseAuthorString` succeeds exactly on the strings that have the author shape and whose address passes `isValidEmail` |
| Authors.AuthorStringParses | src/Commands/CreatePluginSkeletonCommand.php:145 | Rebuilding an author whose name is non-blank, trimmed and made of name characters, with a valid address, parses back to that author |
| Authors.AuthorAnswerReparses | src/Commands/CreatePluginSkeletonCommand.php:143-145 | The string the author prompt stores parses again to the same author whenever the trimmed name is not empty |
| Authors.BlankAuthorNameDoesNotReparse | src/Commands/CreatePluginSkeletonCommand.php:143-145 | An author whose name trims to nothing is stored as a string that no longer parses |
| Authors.FormatAuthors | src/Commands/CreatePluginSkeletonCommand.php:365-368 | A null author is a `TypeError`. Otherwise it succeeds exactly when the author string parses, giving the one-element list of the parsed author, and its error is the parse error |
| Authors.SkippedAuthorFailsAsWritten | src/Commands/CreatePluginSkeletonCommand.php:217 | Answering `n` or `no` stores null, and `formatAuthors` then fails on it (see Findings) |
| Manifest.ObjectAt | src/Commands/CreatePluginSkeletonCommand.php:220-221 | The PHP nested write into `autoload`/`psr-4`: a missing key or null starts a fresh object, an object is used as it is, and any other value fails |
| Manifest.AuthorsJson | src/Commands/CreatePluginSkeletonCommand.php:217 | The `authors` list: one `{name, email}` object per author, in order |
| Manifest.CustomizeManifest | src/Commands/CreatePluginSkeletonCommand.php:210-227 | An author that does not parse is that failure. Otherwise it fails exactly when `autoload` or `psr-4` cannot hold an object. On success, name, description and license are set, authors are set when one is given, and the PSR-4 map gets the two new prefixes and loses the template's two. Nothing else changes |
| Manifest.Psr4Steps | src/Commands/CreatePluginSkeletonCommand.php:220-224 | The two insertions followed by the two removals, in source order, produce the stated PSR-4 map |
| Manifest.Psr4PrefixesSurviveUnlessAcme | src/Commands/CreatePluginSkeletonCommand.php:220-224 | Removal follows insertion. For a namespace other than the template's, `Ns\` maps to `src/` and `Tests\Ns\` maps to `tests/`. For the template's own namespace both are removed again. The template's prefixes are gone either way |
| FileTree.SearchTokens | src/Commands/CreatePluginSkeletonCommand.php:276 | The four search texts, computed by the case helpers from the template's names, are `Acme\SyliusExamplePlugin`, `AcmeSyliusExamplePlugin`, `acme_sylius_example` and `acmesyliusexampleplugin` |
| FileTree.RewriteContentsInOrder | src/Commands/CreatePluginSkeletonCommand.php:274-277 | The array `str_replace` applies the four pairs one after another, in order, each over the result of the ones before |
| FileTree.TokenFreeContentsUnchanged | src/Commands/CreatePluginSkeletonCommand.php:251-256 | A file holding none of the four search texts keeps its contents |
| FileTree.Rewritten | src/Commands/CreatePluginSkeletonCommand.php:251-256 | Rewriting files in place keeps the set of paths |
| FileTree.ContentScope | src/Commands/CreatePluginSkeletonCommand.php:265-266 | The Finder lists only existing files |
| FileTree.ContentPassRewritesScope | src/Commands/CreatePluginSkeletonCommand.php:261-281 | The content pass keeps every path, rewrites each file in its scope with the four pairs, and leaves the others as they were |
| FileTree.ExcludedDirectoryUntouched | src/Commands/CreatePluginSkeletonCommand.php:263-266 | A file below a `node_modules` or `vendor` directory, at any depth, is not changed |
| FileTree.ExcludedFileNameUntouched | src/Commands/CreatePluginSkeletonCommand.php:271-273 | A file itself named `node_modules` or `vendor` is skipped |
| FileTree.RenameOne | src/Commands/CreatePluginSkeletonCommand.php:295-302 | One iteration of the rename loop: the file leaves its path, its renamed path holds the class-renamed contents (replacing any file there), and every other file is unchanged |
| FileTree.RenamePassUntouched | src/Commands/CreatePluginSkeletonCommand.php:286-304 | A file that is not listed and that no listed file is moved onto keeps its path and its contents |
| FileTree.RenamePassMovesEachFile | src/Commands/CreatePluginSkeletonCommand.php:286-304 | Without collisions, the paths after the pass are the unlisted ones plus the targets. Each target holds its source's contents with the class renamed, and unlisted files keep their contents |
| FileTree.TokenFreePathStays | src/Commands/CreatePluginSkeletonCommand.php:298-302 | A listed file whose path lacks `AcmeSyliusExample` is renamed in place |
| FileTree.RenameScopeIsPhp | src/Commands/CreatePluginSkeletonCommand.php:290-291 | Every file the rename pass lists ends in `.php` |
| FileTree.RenameTargetIsPhp | src/Commands/CreatePluginSkeletonCommand.php:298-302 | Replacing `AcmeSyliusExample` in a `.php` path gives a `.php` path |
| FileTree.RenamePassKeepsPath | src/Commands/CreatePluginSkeletonCommand.php:286-304 | A path that no listed file sits at or is moved onto is present after the pass exactly when it was present before |
| PluginWorkspace.RenameScope | src/Commands/CreatePluginSkeletonCommand.php:291 | The rename pass lists only existing files |
| PluginWorkspace.EnvScope | src/Commands/CreatePluginSkeletonCommand.php:428 | The `.env` Finder lists only existing files |
| PluginWorkspace.EnvCopied | src/Commands/CreatePluginSkeletonCommand.php:425 | After the copy, `.env` exists in addition to the earlier paths. It holds the template's contents when it was absent or older than the template |
| PluginWorkspace.EnvFileInScope | src/Commands/CreatePluginSkeletonCommand.php:425-428 | The copied `.env` is among the files the `.env` Finder lists, even though it is a dot file |
| PluginWorkspace.EnvLineRewritten | src/Commands/CreatePluginSkeletonCommand.php:430-436 | The MySQL line becomes that line commented out, followed by the SQLite line |
| PluginWorkspace.EnvWithoutMysqlUnchanged | src/Commands/CreatePluginSkeletonCommand.php:430-436 | A settings file without the MySQL line is left as it is |
| PluginWorkspace.Workspace.WriteFiles | src/Commands/CreatePluginSkeletonCommand.php:251-256 | Writing every file of a scope, one at a time, leaves each scoped file rewritten with the pairs and every other file as it was |
| PluginWorkspace.Workspace.ChangeDummyPluginName | src/Commands/CreatePluginSkeletonCommand.php:261-281 | The files become the content pass of the old files |
| PluginWorkspace.Workspace.RenameClasses | src/Commands/CreatePluginSkeletonCommand.php:286-304 | For a duplicate-free listing of the `*.php` files below `src/`, the files become the rename pass over that listing, file by file |
| PluginWorkspace.Workspace.PrepareSqliteEnv | src/Commands/CreatePluginSkeletonCommand.php:422-436 | A missing `.env.dist` is the copy error and nothing changes. Otherwise it succeeds: the copy is made, every listed `.env` is rewritten, `.env` exists, and a freshly copied `.env` holds the template with the MySQL line replaced |
| PluginWorkspace.Workspace.CustomizeComposerFile | src/Commands/CreatePluginSkeletonCommand.php:210-227 | Fails exactly when `composer.json` is missing or does not decode to an object (unreadable), or when the rewrite of the document fails. The error is that reason, and nothing is written. On success `composer.json`, and only it, holds the encoding of the rewritten document |
| Process.AppendToEach | src/Commands/BaseCommand.php:70-72 | The `array_map` keeps the length, and appends the suffix to each command |
| Process.PassOptionsToCommand | src/Commands/BaseCommand.php:67-82 | Same length and order. Each command is followed by ` --no-ansi` if that option is set, then ` --quiet` if that option is set. With neither option the list is unchanged |
| Process.AsList | src/Commands/BaseCommand.php:46 | A single command becomes a one-element list, and a list stays as it is |
| Process.CommandLineOfOne | src/Commands/BaseCommand.php:46-50 | One command, given alone or in a list, runs as itself followed by the flag suffix |
| Process.CommandLineOfMany | src/Commands/BaseCommand.php:50 | Several commands run as the first decorated command, ` && `, then the command line of the rest |
| Process.FindComposer | src/Commands/BaseCommand.php:87-94 | Plain `composer` exactly when there is no `composer.phar` in the working directory. Otherwise it is the quoted PHP binary followed by ` composer.phar` |
| Process.VerifyDestination | src/Commands/BaseCommand.php:31-36 | Fails exactly when the folder exists and is not the working directory, with "Directory already exists" (or the older copy's "Plugin already exists") |
| Process.DestinationExamples | tests/Unit/CreatePluginSkeletonCommandTest.php:126-158 | With `vfs://root/foo` present, `root/foo` passes and `vfs://root/foo` fails with "Directory already exists" |
| Process.GetVersion | src/CreatePluginSkeletonCommand.php:186-193 | `develop` exactly under `--dev`, and `master` exactly otherwise |
| Installer.CoreStepsOrdered | src/Commands/CreatePluginSkeletonCommand.php:74-80 | Install, the three customisations and dump-autoload run in that order |
| Installer.CoreStepsTasks | src/Commands/CreatePluginSkeletonCommand.php:74-80 | The fixed steps carry out exactly those five tasks |
| Installer.InstallStepLine | src/Commands/CreatePluginSkeletonCommand.php:311-320 | The install step runs from the working directory, and its command line is `<composer> create-project sylius/plugin-skeleton <folder>` followed by the console flags |
| Installer.DumpAutoloadStepLine | src/Commands/CreatePluginSkeletonCommand.php:411-415 | Dump-autoload runs inside the plugin folder as the one command `<composer> dump-autoload --optimize` followed by the console flags |
| Installer.DatabaseStepLine | src/Commands/CreatePluginSkeletonCommand.php:438-442 | The database step runs inside the plugin folder. Its command line is the database-create command with the flags, ` && `, then the schema-create command with the flags |
| Installer.SqliteStepsOrdered | src/Commands/CreatePluginSkeletonCommand.php:422-442 | The SQLite set-up edits the settings first and then runs the database commands, and carries out exactly those two tasks |
| Installer.OptionalStepsOrdered | src/Commands/CreatePluginSkeletonCommand.php:82-100 | The optional steps run in question order (assets, SQLite, fixtures, server), all after dump-autoload |
| Installer.OptionalTasks | src/Commands/CreatePluginSkeletonCommand.php:82-100 | The optional tasks carried out are exactly those whose question was answered yes |
| Installer.FullTraceOrdered | src/Commands/CreatePluginSkeletonCommand.php:64-104 | A full run's steps are strictly ordered. The destination check comes first exactly when `--force` is absent and appears nowhere else. The ready message comes last |
| Installer.FullTraceEnds | src/Commands/CreatePluginSkeletonCommand.php:64-104 | A full run has more than one step. It starts with the destination check, or with install under `--force`, and ends with the ready message |
| Installer.FullTraceTasks | src/Commands/CreatePluginSkeletonCommand.php:64-104 | A full run carries out the five fixed tasks plus each confirmed optional one, and nothing else |
| Installer.SkeletonCommand.Interact | src/Commands/CreatePluginSkeletonCommand.php:110-164 | The package name comes from the option when given, else from the answer, and must validate; then the vendor and name are its two sides. The author, description and license are asked only when not given. A null or unparsable author answer stops the command, and a skipped author stores null. `--force` and the console flags are unchanged |
| Installer.SkeletonCommand.CustomizeSkeleton | src/Commands/CreatePluginSkeletonCommand.php:172-179 | Fails exactly when the manifest cannot be rewritten, with that reason, and the files are then the download as it was. On success the files are the download with `composer.json` rewritten, then the content pass, then the rename pass |
| Installer.SkeletonCommand.RunOptionalSteps | src/Commands/CreatePluginSkeletonCommand.php:82-100 | The confirmed optional steps run in order. They fail exactly when the SQLite question was answered yes and `.env.dist` is missing. They then stop at the SQLite step with the copy error, and the files are unchanged. On success the files carry the SQLite settings exactly when that question was answered yes |
| Installer.CustomizingKeepsEnvTemplate | src/Commands/CreatePluginSkeletonCommand.php:261-304 | The content pass and the rename pass keep `.env.dist` present or absent, as it was. The rename pass lists only `.php` files and moves them only to `.php` paths |
| Installer.CustomizedSkeletonKeepsEnvTemplate | src/Commands/CreatePluginSkeletonCommand.php:172-179 | After the three customisations, `.env.dist` is present exactly when the download held it |
| Installer.SkeletonCommand.RunAfterInstall | src/Commands/CreatePluginSkeletonCommand.php:76-100 | After the download, the run succeeds exactly when the manifest can be rewritten and, if SQLite was asked for, the download holds `.env.dist`. A manifest failure stops at the first customisation, with that reason, and the files are the download. A missing `.env.dist` stops at the SQLite step with the copy error, and the files are the customised template. On success all steps are begun, and the files are the customised template plus the SQLite settings when asked for |
| Installer.SkeletonCommand.DestinationTrace | src/Commands/CreatePluginSkeletonCommand.php:70-72 | A run stopped by the destination check has begun that check only, which is a proper prefix of the full run |
| Installer.SkeletonCommand.RunTrace | src/Commands/CreatePluginSkeletonCommand.php:74-100 | Past the destination check, the steps begun are the whole run on success. Otherwise they are a proper prefix of it ending at the manifest rewrite or the settings edit |
| Installer.SkeletonCommand.Execute | src/Commands/CreatePluginSkeletonCommand.php:64-104 | The steps begun are a prefix of the full run, and all of it exactly on success. A run succeeds exactly when the destination check passes or `--force` skips it, the manifest can be rewritten, and, if SQLite was asked for, the download holds `.env.dist`. The destination error happens exactly when `--force` is absent and the folder exists; then only the check was begun and no file changed. A manifest failure leaves the download as it was, and a missing `.env.dist` leaves the customised template. Any failure ends at the check, the manifest rewrite or the SQLite set-up. On success the files are the customised template, plus the SQLite settings when asked for |

## Left out

- Process execution, the TTY, console output and the welcome banner (`initialize`, `printWelcomeMessage`, `executeProcess`'s `Process` object) are not modelled. Each shell step appears in the trace with its commands and working directory. The source ignores the exit status of every process, so the model has none.
- `configure` (the option names, shortcuts and descriptions) and the command's constructor are console metadata and are left out.
- The download done by `composer create-project` is a parameter: the files it leaves behind.
- Reading and writing `composer.json` (`ComposerReader`) are a codec parameter: decoding text into JSON and encoding it back. `ComposerReader` is not part of this model.
- Each shell answer is a parameter: the four yes/no confirmations, and the prompt answers (an empty answer is the prompt's default, null).
- Finder's listing order is a parameter of the rename pass (any duplicate-free listing of its scope). The rename pass reads its listing before it starts.
- The file-age comparison of `Filesystem::copy` is a parameter (`templateNewer`).
- Paths in the file store are relative to the working directory. The absolute prefix that `getRealPath` adds is left out, so a token inside the working directory's own path is not modelled.
- A rename onto an existing directory, and file-system failures other than a missing `.env.dist`, are left out.
- `lower` and the case helpers work on ASCII only, and the Underscore library's own source is not part of this model. The Unicode classes `\p{L}\p{N}\p{Mn}` of the author pattern are a platform parameter, and so is `filter_var`'s verdict.
- A PCRE `$` also matches before a final line feed. The model treats `$` as the end of the string in both patterns.
- The key order of `composer.json` is not modelled, because the document is a map. The source's PHP array keeps insertion order, so a new `authors` entry and the two new PSR-4 prefixes end up after the existing keys.
- PHP's integer/string key coercion in arrays is not modelled.
- Manifest.CustomizeManifest: reports `NotAnObject` for an `autoload` or `psr-4` value that is `false` or a JSON list. PHP writes into those values: `false` becomes an empty array, and a list takes the new string keys. Only other scalars fail in PHP.
- PluginWorkspace.Workspace.CustomizeComposerFile: reports `Unreadable` for a `composer.json` that decodes to a JSON list. PHP writes the new keys into a list as into an object.
- Installer.SkeletonCommand.Interact: one answer per prompt. The retry budget of `setMaxAttempts(2)` is not modelled; a rejected answer stops the command.
- Manifest.CustomizeManifest: models the corrected behaviour for a skipped author. It leaves `authors` as it was instead of failing (see Findings).
- Process.GetVersion: the older copy defines it but never calls it, so no step uses it.

## Findings

| source | as written | input that shows it | evidently intended | confidence | as-written member | corrected member |
|---|---|---|---|---|---|---|
| src/Commands/CreatePluginSkeletonCommand.php:217 | `customizeComposerFile` always calls `formatAuthors(string $author)` on the author option. The author prompt stores null when the author is skipped, so this is a `TypeError`, raised after the template was already downloaded. The older copy has the same line (src/CreatePluginSkeletonCommand.php:256) | answer `n` at the prompt "Author (Jane Doe <jane.doe@sylius.com>), n to skip" | a skipped author leaves the template's `authors` entry alone | not executed; follows from PHP 7's type check on a non-nullable `string` parameter | Authors.SkippedAuthorFailsAsWritten | Manifest.CustomizeManifest |
