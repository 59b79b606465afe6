/** What several parts of the model share: optional values (a nullable column, a missing JSON
    field, an argument that was not given), the names of the maintenance procedures, and words in
    letters of either case. */
module Common {
  datatype Option<+T> = None | Some(value: T)

  /** The maintenance procedures that can be requested. */
  datatype Command =
    | ComputeStats | RewriteManifests | RewriteDataFiles | RewritePositionDeletes
    | ExpireSnapshots | RemoveOrphanFiles | StorageMigration | Rollback

  /** The word, its letters in upper or lower case as one likes. */
  predicate Spells(word: string, upper: string, lower: string) {
    |word| == |upper| == |lower| && forall i :: 0 <= i < |word| ==> word[i] in {upper[i], lower[i]}
  }
}
