/**
 * The filesystem as the router sees it. A feature directory is reduced to a
 * snapshot of the four facts the router reads from it: whether `types.ts`,
 * `api.ts` and `components/` exist, and whether `api.ts` holds the literal
 * integration marker. A directory that is not recorded has none of them.
 */
module Workspace {

  datatype Snapshot = Snapshot(
    typesExists: bool,       // <feature>/types.ts exists
    apiExists: bool,         // <feature>/api.ts exists
    apiHasMarker: bool,      // <feature>/api.ts contains the integration-point marker
    componentsExist: bool)   // <feature>/components exists

  const Empty := Snapshot(false, false, false, false)

  /** Feature directory path -> what exists inside it. */
  type FileTree = map<string, Snapshot>

  /**
   * Reads the snapshot of one feature directory. This is the definition of the
   * filesystem abstraction: a directory never recorded holds nothing.
   */
  function Inspect(fs: FileTree, featurePath: string): (s: Snapshot)
    ensures featurePath !in fs ==> s == Empty
    ensures featurePath in fs ==> s == fs[featurePath]
  {
    if featurePath in fs then fs[featurePath] else Empty
  }

  /** Python's `Path(dir) / name`, without normalisation. */
  function Join(dir: string, name: string): string {
    dir + "/" + name
  }
}
