/** The control channel's vocabulary (packages/core/src/protocol.ts). */
module Messages {
  import opened Basics
  import opened Store

  datatype HistoryEntry = HistoryEntry(revisionId: RevisionId, hash: Hash, sizeBytes: nat, parentIds: seq<RevisionId>)

  datatype Header = Header(transferSeq: nat, vaultId: VaultId, revisionId: RevisionId, hash: Hash, sizeBytes: nat,
    parentIds: seq<RevisionId>, totalChunks: nat, message: Option<string>)

  datatype ErrorCode = UnsupportedVersion | Unauthorized | UnknownVault | MalformedMessage | LimitExceeded | Internal

  datatype Message =
    | Hello(protocolVersion: int, deviceId: DeviceId, deviceName: string, publicKey: string, nonce: string)
    | Auth(signature: string)
    | VaultSummary(vaultId: VaultId, vaultName: string, revisionCount: nat, headRevisionId: Option<RevisionId>)
    | HistorySummary(historyVault: VaultId, revisions: seq<HistoryEntry>)
    | WantRevisions(wantVault: VaultId, revisionIds: seq<RevisionId>)
    | RevisionHeader(header: Header)
    | RevisionAck(ackId: RevisionId, accepted: bool, ackReason: Option<string>)
    | TransferCancel(cancelSeq: nat, cancelReason: string)
    | SyncComplete(completeVault: VaultId)
    | Bye
    | Error(code: ErrorCode, text: string)
}
