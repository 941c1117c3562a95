# bedrock-deployer recipes in Dafny

A model of the Deployer recipes of bedrock-deployer that move a Bedrock
WordPress site between a local Vagrant machine and a server:

- `pull:db` and `push:db` (recipe/bedrock_db.php): export, transfer, back up,
  reset and import a database, then rewrite the site URLs found in the two
  `.env` files;
- `backup:remote_files`, `backup:local_files`, `push:files-no-bak`,
  `pull:files-no-bak`, `push:files` and `pull:files` (recipe/filetransfer.php):
  archive the `sync_dirs` directories and transfer them;
- `activate:plugins`, `bedrock:prepare` and the `$getUBPath` helper
  (recipe/common.php).

Each task is a pure function from the Deployer configuration (`Config`: the
`get(...)` variables) and the outside world (`World`: the `cygpath -u`
output, the successive `date()` readings and the `WP_HOME` values the two
`.env` files yield) to the trace of commands it issues (`Trace.Cmd`: wp-cli
calls on the server or Vagrant WordPress, uploads, downloads, `rm`, `zip`,
`mkdir`, `cygpath`). Properties are stated on traces through
`Trace.Filter(trace, selector)`, the commands of one class in trace order
(commands on one database, rewrites, transfers, removals on one side,
conversions, archives), and `Trace.AllBefore`.

Modules: `Wrappers` (Option), `Strings` (rtrim with "/", trailing-slash
normalisation, ASCII case folding), `Trace`, `Settings`, `Common`,
`UrlDomain` (`$urlToDomain`), `BedrockDb`, `FileTransfer`.

Behaviour of the recipes worth knowing:

- Both URL rewrites of a db task are scoped with `--url` to the domain of the
  side the database came from: the server domain on `pull:db`, the local
  domain on `push:db`.
- `$getUBPath` accepts any path whose first character is a PCRE word
  character (ASCII letter, digit or '_') followed by ':', so "1:x", "_:x" and
  a bare "C:" are converted; a rejected path yields PHP null, which the
  callers use as the empty string.
- A `WP_HOME` of "0" counts as missing, like an empty or absent one (PHP's
  `!$url`).
- Without `is_windows_bash`, `$localUBRoot` is never assigned, so the db
  exports pass through `/<dump_folder>` and the server `.env` is downloaded
  to `/.env-remote` (`BedrockDb.LocalPathsWithoutWindowsBash`). Dotenv then
  reads `local_bedrock_root/.env-remote`, which is a different file; see
  `BedrockDb.GetRemoteEnv` under "Left out".
- `push:db` removes its uploaded export only after a successful rewrite;
  when either URL is missing the upload stays on the server. `pull:db`
  removes its export from the server unconditionally.
- The trailing-slash normalisation before archiving looks at the last
  character only: "dir//" is archived as is, "" becomes "/".

## Model

| member | source | states |
|---|---|---|
| Strings.TrimTrailingSlashes | recipe/bedrock_db.php:78 | rtrim with "/" yields a prefix of the URL that does not end in '/', and everything it drops is a '/' |
| Strings.TrimTrailingSlashesOfPadded | recipe/bedrock_db.php:78 | trimming a string that does not end in '/' after any number of appended slashes gives the string back |
| Strings.EnsureTrailingSlash | recipe/filetransfer.php:73-76 | the directory a backup enters ends in '/', extends the configured path by at most that one '/', and is the path itself when it already ended in '/' |
| Strings.EnsureTrailingSlashIdempotent | recipe/filetransfer.php:95-98 | normalising a directory twice is normalising it once |
| Strings.LowerAsciiString | recipe/bedrock_db.php:78 | case folding for the caseless scheme match leaves no upper-case ASCII letter, keeps every other character in place, and maps each upper-case letter to the lower-case letter at the same position of the alphabet |
| UrlDomain.SchemeLength | recipe/bedrock_db.php:78 | the pattern removes nothing, or 7 or 8 leading characters that spell `http://` or `https://` in any case, and it removes them only when a character other than a line feed follows, so the remainder `(.+)` is never empty |
| UrlDomain.UrlToDomain | recipe/bedrock_db.php:77-79 | a domain never ends in '/' |
| UrlDomain.SchemeLengthOfScheme | recipe/bedrock_db.php:78 | when the trimmed URL starts with `http://` or `https://` in any case and a non-line-feed character follows, exactly that scheme is removed |
| UrlDomain.SchemeOfSchemeLength | recipe/bedrock_db.php:78 | whatever is removed is such a scheme followed by a non-line-feed character |
| UrlDomain.UrlToDomainStripsScheme | recipe/bedrock_db.php:71-79 | round trip: a scheme, a domain and any number of trailing slashes give back the domain |
| UrlDomain.UrlToDomainStripsOnlySchemes | recipe/bedrock_db.php:77-79 | the result differs from the trimmed URL if and only if the trimmed URL starts with a scheme followed by a non-line-feed character; otherwise it is the trimmed URL |
| UrlDomain.UrlToDomainExampleHttp | recipe/bedrock_db.php:77-79 | `http://site.local/` gives `site.local` |
| UrlDomain.UrlToDomainExampleUpperCase | recipe/bedrock_db.php:77-79 | `HTTPS://Example.com//` gives `Example.com`: the scheme match ignores case, the domain keeps its case |
| UrlDomain.UrlToDomainExampleHttps | recipe/bedrock_db.php:77-79 | `https://example.com` gives `example.com` |
| UrlDomain.UrlToDomainExampleBareScheme | recipe/bedrock_db.php:77-79 | `https://` gives `https:`: once the slashes are trimmed nothing follows the scheme, so nothing is replaced |
| Common.GetUbPath | recipe/common.php:21-32 | a path is converted if and only if it starts with a word character and ':'; a converted path costs one local `cygpath -u` and returns its output, a rejected one returns nothing and runs nothing |
| Common.UbPath | recipe/common.php:21-32 | the value callers use is the cygpath output for an accepted path and the empty string (PHP null) otherwise |
| Common.GetUbPathLooksAtTwoChars | recipe/common.php:24 | only the first two characters decide whether a path is converted |
| Common.GetUbPathExamples | recipe/common.php:24 | "C:", "1:x", "_:x" and a Windows path are converted; "/home/site", "C" and "-:x" are not |
| Common.ActivatePlugins | recipe/common.php:10-16 | `activate:plugins` is one activation of all plugins, on the server WordPress only |
| Common.BedrockPrepare | recipe/common.php:40-60 | `bedrock:prepare` issues exactly two commands: it creates the local and then the server dump folder that the other tasks write into, with no existence check |
| BedrockDb.LocalUbRoot | recipe/bedrock_db.php:86-90 | `$localUBRoot` is the cygpath output, after one conversion, only under `is_windows_bash` with an accepted root, and the empty string otherwise |
| BedrockDb.GetLocalEnv | recipe/bedrock_db.php:27-40 | the local URL is returned if and only if it is usable (set, not "", not "0") |
| BedrockDb.GetRemoteEnv | recipe/bedrock_db.php:49-69 | the server URL is returned if and only if it is usable; whether or not it is, the temporary local copy is removed, as the last command |
| BedrockDb.LoadUrls | recipe/bedrock_db.php:135-143 | both URLs come back if and only if both are usable; the server lookup runs only when the local URL was found |
| BedrockDb.FilterLoadUrls | recipe/bedrock_db.php:49-69 | the lookups contribute only a conversion, the `.env` download and the removal of its copy, and nothing when the local URL is missing |
| BedrockDb.RewriteUrlsPicks | recipe/bedrock_db.php:153-156 | the two rewrite passes are rewrites of one database and nothing else |
| BedrockDb.PullDbSource | recipe/bedrock_db.php:105-109 | the only command `pull:db` runs on the server database is the export to `_db_remote_<time>.sql` in the server dump folder |
| BedrockDb.PullDbRewritesAreTail | recipe/bedrock_db.php:145-156 | the rewrites of `pull:db` are exactly its URL-rewrite phase |
| BedrockDb.PullDbRewrites | recipe/bedrock_db.php:136-156 | `pull:db` rewrites nothing unless both URLs are usable; then server URL into local URL, then server domain into local domain, on the Vagrant database, both scoped to the server domain |
| BedrockDb.PullDbOrder | recipe/bedrock_db.php:105-133 | across the phases of `pull:db`: the server export comes before the download of the export, the download is followed at once by the removal of the export from the server, and every command on the Vagrant database comes after that removal |
| BedrockDb.PullDbDestination | recipe/bedrock_db.php:105-156 | the Vagrant database is backed up to `_db_local_<second time>.sql`, reset, loaded from `_db_remote_<first time>.sql` in the Vagrant dump folder (the name the download used, not its path), and only then rewritten; every one of these commands follows every command on the server database and the download of the server export |
| BedrockDb.PullDbTransfers | recipe/bedrock_db.php:111-114 | `pull:db` downloads the export from the server dump folder to the same file name in the dump folder below `$localUBRoot`, then the server `.env` only if the local URL was found |
| BedrockDb.PullDbRemovesExport | recipe/bedrock_db.php:116-118 | the only server file `pull:db` removes is its export |
| BedrockDb.PullDbRemovesAfterDownload | recipe/bedrock_db.php:111-118 | the export is removed from the server right after its download |
| BedrockDb.PullDbRemovesEnvCopy | recipe/bedrock_db.php:54-60 | locally, `pull:db` removes only the `.env` copy, whenever it fetched one |
| BedrockDb.PullDbConversions | recipe/bedrock_db.php:86-90 | `pull:db` converts the local root once, plus once more for the server lookup, under `is_windows_bash` with an accepted root, and never otherwise |
| BedrockDb.LocalPathsWithoutWindowsBash | recipe/bedrock_db.php:96-98 | without `is_windows_bash` the local dump path and the `.env` copy sit at the file-system root and nothing is converted |
| BedrockDb.DumpPathsWithoutWindowsBash | recipe/bedrock_db.php:96-133 | without `is_windows_bash` the downloaded export `$localUBDump/<name>` and the imported `{$vagrantRoot}/<dump_folder>/<name>` are the same path exactly when `vagrant_root` is empty; the same holds for the export and the upload of `push:db` (lines 185-192) |
| BedrockDb.PushDbSource | recipe/bedrock_db.php:182-187 | the only command `push:db` runs on the Vagrant database is the export to `_db_local_<time>.sql` |
| BedrockDb.PushDbRewritesAreTail | recipe/bedrock_db.php:226-229 | the rewrites of `push:db` are exactly its URL-rewrite phase |
| BedrockDb.PushDbRewrites | recipe/bedrock_db.php:208-229 | `push:db` rewrites nothing unless both URLs are usable; then local URL into server URL, then local domain into server domain, on the server database, with `--skip-themes`, both scoped to the local domain |
| BedrockDb.PushDbOrder | recipe/bedrock_db.php:182-206 | across the phases of `push:db`: every command on the Vagrant database comes before the upload of the export, and every command on the server database comes after it |
| BedrockDb.PushDbDestination | recipe/bedrock_db.php:182-229 | the server database is backed up to `_db_remote_<second time>.sql`, reset, loaded from the upload, and only then rewritten; every one of these commands follows the Vagrant export and the upload of the export |
| BedrockDb.PushDbTransfers | recipe/bedrock_db.php:185-192 | `push:db` uploads `_db_local_<first time>.sql` from the dump folder below `$localUBRoot`, not from the Vagrant path its export wrote, to the same name in the server dump folder; then it downloads the server `.env` only if the local URL was found |
| BedrockDb.PushDbRemovesUpload | recipe/bedrock_db.php:208-233 | the uploaded export is removed from the server if and only if both URLs are usable |
| BedrockDb.PushDbRemovesEnvCopy | recipe/bedrock_db.php:182-192 | locally, `push:db` removes only the `.env` copy fetched at lines 54-60, whenever it fetched one; the local export it uploaded is never removed |
| BedrockDb.PushDbRemovesUploadLast | recipe/bedrock_db.php:226-233 | when it happens, the removal is the last command, right after the two rewrites |
| BedrockDb.DbFileNameSidesDiffer | recipe/bedrock_db.php:183-195 | a `_db_remote_` file name never equals a `_db_local_` one, whatever the timestamps |
| BedrockDb.PushDbBackupKeepsUpload | recipe/bedrock_db.php:190-196 | the server backup never overwrites the upload in the same dump folder, even within the same second |
| BedrockDb.PushDbScenario | recipe/bedrock_db.php:218-229 | pushing `http://site.local/` to `https://example.com` rewrites exactly those URLs, trailing slash included, and then `site.local` into `example.com`, both scoped to `site.local` |
| FileTransfer.Backups | recipe/filetransfer.php:68-80 | the backup loop issues one archive per entry, in order: entry i is zipped on its side from exactly its own path normalised to end in '/', into the dump folder under the name of clock reading i |
| FileTransfer.BackupRemoteFiles | recipe/filetransfer.php:62-82 | `backup:remote_files` zips each server directory, exactly as normalised to end in '/', into the server dump folder under `_remote_upload_backup_<time>.zip` |
| FileTransfer.BackupLocalFiles | recipe/filetransfer.php:85-104 | `backup:local_files` zips each local directory, unconverted and exactly as normalised to end in '/', into the local dump folder under `_local_upload_backup_<time>.zip` |
| FileTransfer.ArchiveNameInjective | recipe/filetransfer.php:70 | two archive names of one side coincide if and only if their timestamps do |
| FileTransfer.ArchiveNameSidesDiffer | recipe/filetransfer.php:92 | local and remote archive names never coincide |
| FileTransfer.BackupsShareArchive | recipe/filetransfer.php:68-80 | two entries of one backup share an archive if and only if their clock readings coincide |
| FileTransfer.BackupsPicks | recipe/filetransfer.php:62-82 | a backup run consists of archive commands only |
| FileTransfer.LocalEnd | recipe/filetransfer.php:32-37 | the local path transferred is the configured one without `is_windows_bash`, otherwise the cygpath output for an accepted path and the empty string for a rejected one |
| FileTransfer.SyncAll | recipe/filetransfer.php:32-38 | the transfer loop only transfers files in its own direction and converts paths, the latter only under `is_windows_bash` |
| FileTransfer.PushFilesNoBak | recipe/filetransfer.php:30-40 | `push:files-no-bak` only uploads, plus conversions under `is_windows_bash`; it never downloads, archives or removes |
| FileTransfer.PullFilesNoBak | recipe/filetransfer.php:49-59 | `pull:files-no-bak` only downloads, plus conversions under `is_windows_bash`; it never uploads, archives or removes |
| FileTransfer.PushFiles | recipe/filetransfer.php:106-110 | the archives of `push:files` are exactly its leading commands, one per `sync_dirs` entry, and no later command is an archive |
| FileTransfer.PullFiles | recipe/filetransfer.php:112-116 | the archives of `pull:files` are exactly its leading commands, one per `sync_dirs` entry, and no later command is an archive |
| FileTransfer.SyncEntryPicks | recipe/filetransfer.php:32-37 | one iteration contributes its conversion, if any, and exactly one transfer |
| FileTransfer.SyncAllTransfers | recipe/filetransfer.php:32-58 | the loop transfers each entry exactly once, in `sync_dirs` order, between its server path and its local path as used |
| FileTransfer.SyncAllPlain | recipe/filetransfer.php:32-38 | without `is_windows_bash` the loop is just the transfers of the configured paths |
| FileTransfer.SyncEntryRejectedPath | recipe/filetransfer.php:34-37 | under `is_windows_bash` a local path without a drive letter is transferred as the empty path, with no conversion |
| FileTransfer.PushFilesBacksUpFirst | recipe/filetransfer.php:107-110 | `push:files` archives every server directory before its first transfer, and removes nothing on either side |
| FileTransfer.PullFilesBacksUpFirst | recipe/filetransfer.php:113-116 | `pull:files` archives every local directory before its first transfer, and removes nothing on either side |
| FileTransfer.PushFilesTransfers | recipe/filetransfer.php:23-40 | the transfers of `push:files` are one upload per entry, local path to server path |
| FileTransfer.PullFilesTransfers | recipe/filetransfer.php:42-59 | the transfers of `pull:files` are one download per entry, server path to local path |

## Left out

- Console output (`writeln`) and the task descriptions (`desc`) are not modelled; they issue no commands.
- Deployer itself (`run`, `runLocally`, `upload`, `download`, `get`, `task`) is taken as given: a command is recorded in the trace, not executed, and its failure, which would abort the task, is not modelled.
- What wp-cli, `vagrant ssh`, `zip`, `rm`, `mkdir` and `cygpath` do to files and databases is outside the model; the commands are recorded with the paths and flags that matter (`--skip-themes`; `--network` is always present and not recorded).
- Loading `.env` files with Dotenv and `getenv('WP_HOME')` are inputs of the world (`World.localHome`, `World.remoteHome`), because they read files. In particular, a server `.env` without WP_HOME leaves the local value visible after the local file was loaded; the model takes whatever value the lookup yields. Dotenv exceptions for a missing file are not modelled.
- `date('Y-m-d_H-i-s')` is the input `World.clock`, which gives the n-th reading within a task; how readings relate to real time is not modelled.
- `{{dump_folder}}` template expansion is taken as yielding `dump_folder`.
- PHP strings are byte strings; the model uses Dafny characters, treats PCRE's `\w` and case folding as ASCII (the C locale) and takes a line feed as the only newline.
- PHP arrays with duplicate `sync_dirs` keys cannot occur after parsing; the model takes `sync_dirs` as a sequence in iteration order and does not require distinct local paths.
- The example deployment script shipped with the repository (deploy.full-example.php) is configuration, not part of the recipes.
- UrlDomain.UrlToDomain: its contract only says the result has no trailing '/'; the full description of the result is given by the lemmas UrlToDomainStripsScheme and UrlToDomainStripsOnlySchemes rather than by the function's own contract.
- BedrockDb.GetRemoteEnv: the model takes `World.remoteHome` to be what reading the downloaded copy yields. The source downloads to `$localUBRoot/.env-remote` (recipe/bedrock_db.php:54-55) but has Dotenv read `local_bedrock_root/.env-remote` (line 56). Without `is_windows_bash`, or with a root that `$getUBPath` rejects, these are different files: the lookup reads whatever file sits at the second path, and if there is none, Dotenv throws before the `rm` of line 60, so neither the removal nor the rewrites are issued. The model does not follow the file system and always records the removal.
- BedrockDb.PullDbDestination, BedrockDb.PushDbTransfers: the model does not relate the Vagrant dump folder `vagrant_root/<dump_folder>` to the host dump folder `$localUBRoot/<dump_folder>`. The recipes rely on the second being the host folder that Vagrant mounts at `vagrant_root`, which is configuration outside the recipes. So the model does not promise that `pull:db` imports the file it downloaded, or that `push:db` uploads the file it exported. Without `is_windows_bash` (or with a root `$getUBPath` rejects) `$localUBRoot` is "", and for a non-empty `vagrant_root` those are different files (BedrockDb.DumpPathsWithoutWindowsBash).
