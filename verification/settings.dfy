/** The Deployer variables the recipes read with `get(...)`, and the inputs a
    task receives from outside the repository. */
module Settings {
  import opened Wrappers
  import opened Trace

  /** One `sync_dirs` entry, `local => server`. A trailing '/' on either path
      means that only the directory's contents are transferred. */
  datatype SyncDir = SyncDir(local: string, server: string) {

    /** The path of this entry on the given side. */
    function On(side: Side): string {
      match side
      case Local => local
      case Remote => server
    }
  }

  /** `local_bedrock_root`, `deploy_path`, `dump_folder`, `vagrant_dir`,
      `vagrant_root`, `is_windows_bash` and `sync_dirs`, in the order PHP
      iterates the `sync_dirs` array. */
  datatype Config = Config(
    localBedrockRoot: string,
    deployPath: string,
    dumpFolder: string,
    vagrantDir: string,
    vagrantRoot: string,
    isWindowsBash: bool,
    syncDirs: seq<SyncDir>)

  /** What a task learns from outside this repository:
      - cygpath: the output of `cygpath -u <path>`;
      - clock: the value of the n-th `date('Y-m-d_H-i-s')` call within a task
        (readings may coincide);
      - localHome, remoteHome: what `getenv('WP_HOME')` returns after
        Dotenv has loaded `local_bedrock_root/.env` and
        `local_bedrock_root/.env-remote` (None for `false`); the second is
        the downloaded server file only when the download went to that
        path. */
  datatype World = World(
    cygpath: string -> string,
    clock: nat -> string,
    localHome: Option<string>,
    remoteHome: Option<string>)

  /** `deploy_path/dump_folder`: where server-side exports and archives go. */
  function RemoteDump(cfg: Config): string {
    cfg.deployPath + "/" + cfg.dumpFolder
  }

  /** `local_bedrock_root/dump_folder`: where local archives go. */
  function LocalDump(cfg: Config): string {
    cfg.localBedrockRoot + "/" + cfg.dumpFolder
  }

  /** `vagrant_root/dump_folder`: the local dump folder as seen inside Vagrant. */
  function VagrantDump(cfg: Config): string {
    cfg.vagrantRoot + "/" + cfg.dumpFolder
  }

  /** The WordPress on the server, run from `deploy_path/release/web`. */
  function ServerWp(cfg: Config): Wp {
    Server(cfg.deployPath + "/release/web")
  }

  /** The WordPress inside the local Vagrant machine. */
  function VagrantWp(cfg: Config): Wp {
    Vagrant(cfg.vagrantDir, cfg.vagrantRoot)
  }
}
