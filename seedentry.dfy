/**
 * The seed entry that packaging produces and the caches store: the
 * dictionary `{'code': eggContents, 'deps': depsManifest}` whose `deps` is
 * a map from absolute dependency path to its modification time, or None
 * when dependencies were not generated.
 */
module SeedEntry {
  import opened Py

  /** A modification time as `os.path.getmtime` reports it (seconds, a float). */
  type MTime = real

  datatype Entry = Entry(code: string, deps: Option<map<string, MTime>>)
}
