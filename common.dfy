/** Types shared by every stage of the provisioning orchestrator: runtime
    identifiers, the error codes a remote call can report, the faults that
    abort a run, and the reply a create call gets from the remote service. */
module Common {

  /** A runtime identifier assigned by the remote asset-modeling service. */
  type Id = string

  datatype Option<+T> = None | Some(value: T)

  /** The `Error.Code` of a remote client error, as far as the orchestrator
      distinguishes it. */
  datatype ErrorCode =
    | InternalError
    | ResourceAlreadyExists
    | ConflictingOperation
    | OtherClientError

  /** An exception that is not a remote client error: it escapes every
      handler and aborts the whole run. */
  datatype Fault =
    | MissingAssetModel(modelName: string)     // KeyError on the resolved asset-model map
    | MissingAsset(assetName: string)          // KeyError on the resolved asset map
    | MissingHierarchyId(logicalId: string)    // KeyError on the hierarchy-id mapping
    | UnboundLocal(variable: string)           // UnboundLocalError

  datatype Result<+T> = Success(value: T) | Failure(fault: Fault)

  /** What a remote create call answers: the new resource's id, or a
      client error. */
  datatype CreateReply = Created(id: Id) | Rejected(code: ErrorCode)

  /** Which stage workers a CREATE run composes: the workers as the script
      writes them, whose unbound locals abort the run on three ordinary
      inputs, or the same workers with those three defects corrected. */
  datatype Build = AsWritten | Corrected
}
