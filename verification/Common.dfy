/** Datatypes shared by the models. */
module Common {
  datatype Option<+T> = None | Some(value: T)

  /** The three artifacts of a full backup. */
  datatype Kind = DatabaseDump | FilestoreArchive | Manifest

  /** Number.MAX_SAFE_INTEGER */
  const MAX_SAFE_INTEGER: nat := 9_007_199_254_740_991

  const ALL_KINDS: set<Kind> := {DatabaseDump, FilestoreArchive, Manifest}
}
