/** What a server-side apply reports: one entry per object, with what happened to it. */
module ChangeSets {
  import opened ObjectIds

  datatype Action = CreatedAction | ConfiguredAction | UnchangedAction | DeletedAction | SkippedAction | UnknownAction

  datatype ChangeSetEntry = ChangeSetEntry(meta: ObjMetadata, groupVersion: string, action: Action)

  /** The identities of the entries, in order. */
  function ToObjMetadataSet(es: seq<ChangeSetEntry>): (metas: seq<ObjMetadata>)
    ensures |metas| == |es|
  {
    seq(|es|, i requires 0 <= i < |es| => es[i].meta)
  }

  predicate HasChanged(action: Action) {
    match action
    case SkippedAction => false
    case UnchangedAction => false
    case _ => true
  }

  /** Some entry of the change set is a mutation: what the controller calls drift. */
  predicate Drifted(entries: seq<ChangeSetEntry>) {
    exists e :: e in entries && HasChanged(e.action)
  }
}
