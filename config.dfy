/** The logger's configuration record and its compiled-in defaults. */
module Config {
  import opened Levels

  /** The configuration fields. Sizes are byte counts; `maxFileCount` is
      carried along but no operation reads it. */
  datatype LogConfig = LogConfig(
    enable: bool,
    toConsole: bool,
    toFile: bool,
    level: LogLevel,
    baseName: string,
    logPath: string,
    maxFileCount: int,
    maxFileSize: nat,
    maxLogsTotalSize: nat,
    maxQueueSize: nat,
    queuePolicy: string)

  const MiB: nat := 1024 * 1024

  /** The values a configuration has before anything is loaded. */
  function Defaults(): (c: LogConfig)
    ensures c.enable && c.toConsole && c.toFile
    ensures c.level == Debug
    ensures c.maxFileSize == 5 * MiB && c.maxLogsTotalSize == 50 * MiB
    ensures c.maxQueueSize == 20000 && c.queuePolicy == "block"
  {
    LogConfig(true, true, true, Debug, "server", "./logs/", 5, 5 * MiB, 50 * MiB, 20000, "block")
  }

  /** With the defaults every level is recorded, at least one full file fits
      in the retention budget, and the queue can hold a task. */
  lemma DefaultsConsistent()
    ensures forall l: LogLevel :: Admits(Defaults().level, l)
    ensures 0 < Defaults().maxFileSize <= Defaults().maxLogsTotalSize
    ensures Defaults().maxLogsTotalSize == 10 * Defaults().maxFileSize
    ensures Defaults().maxQueueSize > 0
    ensures Defaults().baseName == "server" && Defaults().logPath == "./logs/"
  {
    forall l: LogLevel ensures Admits(Defaults().level, l) {
      ThresholdExtremes(l);
    }
  }
}
