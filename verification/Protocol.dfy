/**
 The validating parser of the control channel (packages/core/src/protocol.ts), from JSON values to
 messages and back. Its image is exactly the messages in normal form, and those round-trip.
 */
module Protocol {
  import opened Basics
  import opened Store
  import opened Messages

  datatype Json =
    | Null
    | Boolean(flag: bool)
    | Number(value: real)
    | Text(text: string)
    | List(items: seq<Json>)
    | Record(fields: map<string, Json>)

  const MAX_HISTORY_NODES: nat := 100_000
  const MAX_PARENTS_PER_REVISION: nat := 64
  const MAX_WANTED_REVISIONS: nat := 100_000
  const MAX_REVISION_BYTES: nat := 512 * 1024 * 1024
  const MAX_CHUNKS: nat := 262_144
  const MAX_STRING_LENGTH: nat := 4096

  type Fields = map<string, Json>

  function Get(o: Fields, name: string): Option<Json> {
    if name in o then Some(o[name]) else None
  }

  // ---- field validators ------------------------------------------------------------

  predicate Bounded(s: string) {
    0 < |s| <= MAX_STRING_LENGTH
  }

  /** A string that is present, non-empty and short enough to keep. */
  function Str(v: Option<Json>): Option<string> {
    if v.Some? && v.value.Text? && Bounded(v.value.text) then Some(v.value.text) else None
  }

  predicate HexDigit(c: char) {
    'a' <= c <= 'f' || '0' <= c <= '9'
  }

  predicate IsHex64(s: string) {
    |s| == 64 && forall i :: 0 <= i < |s| ==> HexDigit(s[i])
  }

  function Hex64(v: Option<Json>): Option<Hash> {
    if v.Some? && v.value.Text? && IsHex64(v.value.text) then Some(Hash(v.value.text)) else None
  }

  function Whole(v: Option<Json>): Option<int> {
    if v.Some? && v.value.Number? && v.value.value == v.value.value.Floor as real then Some(v.value.value.Floor) else None
  }

  /** A non-negative integer. */
  function Count(v: Option<Json>): Option<nat> {
    var n := Whole(v);
    if n.Some? && n.value >= 0 then Some(n.value) else None
  }

  function Items(v: Option<Json>): Option<seq<Json>> {
    if v.Some? && v.value.List? then Some(v.value.items) else None
  }

  // ---- lists -----------------------------------------------------------------------

  function Ids(items: seq<Json>): Option<seq<RevisionId>> {
    if |items| == 0 then Some([])
    else
      var before := Ids(items[..|items| - 1]);
      var last := Str(Some(items[|items| - 1]));
      if before.None? || last.None? then None else Some(before.value + [RevisionId(last.value)])
  }

  /** A list of ids is refused at its first entry that is not one. */
  method CollectIds(items: seq<Json>) returns (r: Option<seq<RevisionId>>)
    ensures r == Ids(items)
  {
    var ids: seq<RevisionId> := [];
    for i := 0 to |items|
      invariant Ids(items[..i]) == Some(ids)
    {
      assert items[..i + 1][..i] == items[..i];
      var id := Str(Some(items[i]));
      if id.None? {
        NoIdsAfter(items, i + 1);
        return None;
      }
      ids := ids + [RevisionId(id.value)];
    }
    assert items[..|items|] == items;
    return Some(ids);
  }

  lemma {:induction false} NoIdsAfter(items: seq<Json>, n: nat)
    requires n <= |items| && Ids(items[..n]).None?
    ensures Ids(items).None?
    decreases |items| - n
  {
    if n == |items| {
      assert items[..n] == items;
    } else {
      assert items[..n + 1][..n] == items[..n];
      NoIdsAfter(items, n + 1);
    }
  }

  function Entry(row: Json): Result<HistoryEntry, ErrorCode> {
    if !row.Record? then Err(MalformedMessage)
    else
      var id, hash := Str(Get(row.fields, "revisionId")), Hex64(Get(row.fields, "hash"));
      var size, parents := Count(Get(row.fields, "sizeBytes")), Items(Get(row.fields, "parentIds"));
      if id.None? || hash.None? then Err(MalformedMessage)
      else if size.None? || size.value > MAX_REVISION_BYTES then Err(MalformedMessage)
      else if parents.None? then Err(MalformedMessage)
      else if |parents.value| > MAX_PARENTS_PER_REVISION then Err(LimitExceeded)
      else
        var ids := Ids(parents.value);
        if ids.None? then Err(MalformedMessage) else Ok(HistoryEntry(RevisionId(id.value), hash.value, size.value, ids.value))
  }

  /** The entries, or what was wrong with the first bad one. */
  function Entries(rows: seq<Json>): Result<seq<HistoryEntry>, ErrorCode> {
    if |rows| == 0 then Ok([])
    else
      var before := Entries(rows[..|rows| - 1]);
      if before.Err? then before
      else match Entry(rows[|rows| - 1])
        case Err(code) => Err(code)
        case Ok(entry) => Ok(before.value + [entry])
  }

  method CollectEntries(rows: seq<Json>) returns (r: Result<seq<HistoryEntry>, ErrorCode>)
    ensures r == Entries(rows)
  {
    var entries: seq<HistoryEntry> := [];
    for i := 0 to |rows|
      invariant Entries(rows[..i]) == Ok(entries)
    {
      assert rows[..i + 1][..i] == rows[..i];
      var entry := ParseEntry(rows[i]);
      if entry.Err? {
        FirstErrorWins(rows, i + 1);
        return Err(entry.error);
      }
      entries := entries + [entry.value];
    }
    assert rows[..|rows|] == rows;
    return Ok(entries);
  }

  method ParseEntry(row: Json) returns (r: Result<HistoryEntry, ErrorCode>)
    ensures r == Entry(row)
  {
    if !row.Record? {
      return Err(MalformedMessage);
    }
    var id, hash := Str(Get(row.fields, "revisionId")), Hex64(Get(row.fields, "hash"));
    var size, parents := Count(Get(row.fields, "sizeBytes")), Items(Get(row.fields, "parentIds"));
    if id.None? || hash.None? || size.None? || size.value > MAX_REVISION_BYTES || parents.None? {
      return Err(MalformedMessage);
    }
    if |parents.value| > MAX_PARENTS_PER_REVISION {
      return Err(LimitExceeded);
    }
    var ids := CollectIds(parents.value);
    r := if ids.None? then Err(MalformedMessage) else Ok(HistoryEntry(RevisionId(id.value), hash.value, size.value, ids.value));
  }

  lemma {:induction false} FirstErrorWins(rows: seq<Json>, n: nat)
    requires n <= |rows| && Entries(rows[..n]).Err?
    ensures Entries(rows) == Entries(rows[..n])
    decreases |rows| - n
  {
    if n == |rows| {
      assert rows[..n] == rows;
    } else {
      assert rows[..n + 1][..n] == rows[..n];
      FirstErrorWins(rows, n + 1);
    }
  }

  // ---- messages --------------------------------------------------------------------

  function ParseHello(o: Fields): Result<Message, ErrorCode> {
    var id, name := Str(Get(o, "deviceId")), Str(Get(o, "deviceName"));
    var key, nonce, version := Str(Get(o, "publicKey")), Str(Get(o, "nonce")), Whole(Get(o, "protocolVersion"));
    if id.None? || name.None? || key.None? || nonce.None? || version.None? then Err(MalformedMessage)
    else Ok(Hello(version.value, DeviceId(id.value), name.value, key.value, nonce.value))
  }

  function ParseVaultSummary(o: Fields): Result<Message, ErrorCode> {
    var vault, name := Str(Get(o, "vaultId")), Str(Get(o, "vaultName"));
    var head, count := Str(Get(o, "headRevisionId")), Count(Get(o, "revisionCount"));
    if vault.None? || count.None? then Err(MalformedMessage)
    else Ok(VaultSummary(VaultId(vault.value), if name.Some? then name.value else "Shared vault", count.value,
      if head.Some? then Some(RevisionId(head.value)) else None))
  }

  function ParseHistorySummary(o: Fields): Result<Message, ErrorCode> {
    var vault, rows := Str(Get(o, "vaultId")), Items(Get(o, "revisions"));
    if vault.None? || rows.None? then Err(MalformedMessage)
    else if |rows.value| > MAX_HISTORY_NODES then Err(LimitExceeded)
    else match Entries(rows.value)
      case Err(code) => Err(code)
      case Ok(entries) => Ok(HistorySummary(VaultId(vault.value), entries))
  }

  function ParseWantRevisions(o: Fields): Result<Message, ErrorCode> {
    var vault, items := Str(Get(o, "vaultId")), Items(Get(o, "revisionIds"));
    if vault.None? || items.None? then Err(MalformedMessage)
    else if |items.value| > MAX_WANTED_REVISIONS then Err(LimitExceeded)
    else match Ids(items.value)
      case None => Err(MalformedMessage)
      case Some(ids) => Ok(WantRevisions(VaultId(vault.value), ids))
  }

  function ParseRevisionHeader(o: Fields): Result<Message, ErrorCode> {
    var vault, id, hash := Str(Get(o, "vaultId")), Str(Get(o, "revisionId")), Hex64(Get(o, "hash"));
    var seqNo, size, chunks := Count(Get(o, "transferSeq")), Count(Get(o, "sizeBytes")), Count(Get(o, "totalChunks"));
    var parents, note := Items(Get(o, "parentIds")), Get(o, "message");
    if vault.None? || id.None? || hash.None? || seqNo.None? then Err(MalformedMessage)
    else if size.None? || size.value > MAX_REVISION_BYTES then Err(LimitExceeded)
    else if chunks.None? || chunks.value > MAX_CHUNKS then Err(LimitExceeded)
    else if parents.None? || |parents.value| > MAX_PARENTS_PER_REVISION then Err(MalformedMessage)
    else
      var ids := Ids(parents.value);
      if ids.None? || (note.Some? && Str(note).None?) then Err(MalformedMessage)
      else Ok(RevisionHeader(Header(seqNo.value, VaultId(vault.value), RevisionId(id.value), hash.value, size.value,
        ids.value, chunks.value, Str(note))))
  }

  /** A long reason is cut, not refused. */
  function ParseRevisionAck(o: Fields): Result<Message, ErrorCode> {
    var id, accepted, reason := Str(Get(o, "revisionId")), Get(o, "accepted"), Get(o, "reason");
    if id.None? || accepted.None? || !accepted.value.Boolean? then Err(MalformedMessage)
    else Ok(RevisionAck(RevisionId(id.value), accepted.value.flag,
      if reason.Some? && reason.value.Text? then Some(Cut(reason.value.text)) else None))
  }

  function Cut(s: string): string {
    if |s| <= MAX_STRING_LENGTH then s else s[..MAX_STRING_LENGTH]
  }

  function ParseTransferCancel(o: Fields): Result<Message, ErrorCode> {
    var seqNo, reason := Count(Get(o, "transferSeq")), Str(Get(o, "reason"));
    if seqNo.None? then Err(MalformedMessage)
    else Ok(TransferCancel(seqNo.value, if reason.Some? then reason.value else "cancelled"))
  }

  function CodeText(c: ErrorCode): string {
    match c
    case UnsupportedVersion => "unsupported-version"
    case Unauthorized => "unauthorized"
    case UnknownVault => "unknown-vault"
    case MalformedMessage => "malformed-message"
    case LimitExceeded => "limit-exceeded"
    case Internal => "internal"
  }

  /** An unknown code is taken for an internal error. */
  function CodeOf(s: string): ErrorCode {
    if s == "unsupported-version" then UnsupportedVersion
    else if s == "unauthorized" then Unauthorized
    else if s == "unknown-vault" then UnknownVault
    else if s == "malformed-message" then MalformedMessage
    else if s == "limit-exceeded" then LimitExceeded
    else Internal
  }

  function ParseError(o: Fields): Result<Message, ErrorCode> {
    var code, text := Str(Get(o, "code")), Str(Get(o, "message"));
    Ok(Error(if code.Some? then CodeOf(code.value) else Internal, if text.Some? then text.value else ""))
  }

  function ParseAuth(o: Fields): Result<Message, ErrorCode> {
    var signature := Str(Get(o, "signature"));
    if signature.None? then Err(MalformedMessage) else Ok(Auth(signature.value))
  }

  function ParseSyncComplete(o: Fields): Result<Message, ErrorCode> {
    var vault := Str(Get(o, "vaultId"));
    if vault.None? then Err(MalformedMessage) else Ok(SyncComplete(VaultId(vault.value)))
  }

  datatype Tag =
    | HelloTag | AuthTag | VaultSummaryTag | HistorySummaryTag | WantRevisionsTag | RevisionHeaderTag
    | RevisionAckTag | TransferCancelTag | SyncCompleteTag | ByeTag | ErrorTag

  function TagOf(s: string): Option<Tag> {
    if s == "hello" then Some(HelloTag)
    else if s == "auth" then Some(AuthTag)
    else if s == "vault-summary" then Some(VaultSummaryTag)
    else if s == "history-summary" then Some(HistorySummaryTag)
    else if s == "want-revisions" then Some(WantRevisionsTag)
    else if s == "revision-header" then Some(RevisionHeaderTag)
    else if s == "revision-ack" then Some(RevisionAckTag)
    else if s == "transfer-cancel" then Some(TransferCancelTag)
    else if s == "sync-complete" then Some(SyncCompleteTag)
    else if s == "bye" then Some(ByeTag)
    else if s == "error" then Some(ErrorTag)
    else None
  }

  function ParseAs(tag: Tag, o: Fields): Result<Message, ErrorCode> {
    match tag
    case HelloTag => ParseHello(o)
    case AuthTag => ParseAuth(o)
    case VaultSummaryTag => ParseVaultSummary(o)
    case HistorySummaryTag => ParseHistorySummary(o)
    case WantRevisionsTag => ParseWantRevisions(o)
    case RevisionHeaderTag => ParseRevisionHeader(o)
    case RevisionAckTag => ParseRevisionAck(o)
    case TransferCancelTag => ParseTransferCancel(o)
    case SyncCompleteTag => ParseSyncComplete(o)
    case ByeTag => Ok(Bye)
    case ErrorTag => ParseError(o)
  }

  function Parse(v: Json): Result<Message, ErrorCode> {
    if !v.Record? || "type" !in v.fields || !v.fields["type"].Text? then Err(MalformedMessage)
    else match TagOf(v.fields["type"].text)
      case None => Err(MalformedMessage)
      case Some(tag) => ParseAs(tag, v.fields)
  }

  // ---- encoding --------------------------------------------------------------------

  function TextOf(ids: seq<RevisionId>): Json {
    List(seq(|ids|, i requires 0 <= i < |ids| => Text(ids[i].text)))
  }

  function EncodeEntry(e: HistoryEntry): Json {
    Record(map["revisionId" := Text(e.revisionId.text), "hash" := Text(e.hash.hex), "sizeBytes" := Number(e.sizeBytes as real),
      "parentIds" := TextOf(e.parentIds)])
  }

  /** An absent field is left out. */
  function With(o: Fields, name: string, v: Option<string>): Fields {
    if v.Some? then o[name := Text(v.value)] else o
  }

  function EncodeHeader(h: Header): Fields {
    With(map["transferSeq" := Number(h.transferSeq as real), "vaultId" := Text(h.vaultId.text),
      "revisionId" := Text(h.revisionId.text), "hash" := Text(h.hash.hex), "sizeBytes" := Number(h.sizeBytes as real),
      "parentIds" := TextOf(h.parentIds), "totalChunks" := Number(h.totalChunks as real)], "message", h.message)
  }

  function EncodeFields(m: Message): Fields {
    match m
    case Hello(version, id, name, key, nonce) =>
      map["protocolVersion" := Number(version as real), "deviceId" := Text(id.text), "deviceName" := Text(name),
        "publicKey" := Text(key), "nonce" := Text(nonce)]
    case Auth(signature) => map["signature" := Text(signature)]
    case VaultSummary(v, name, count, head) =>
      With(map["vaultId" := Text(v.text), "vaultName" := Text(name), "revisionCount" := Number(count as real)],
        "headRevisionId", if head.Some? then Some(head.value.text) else None)
    case HistorySummary(v, entries) =>
      map["vaultId" := Text(v.text), "revisions" := List(seq(|entries|, i requires 0 <= i < |entries| => EncodeEntry(entries[i])))]
    case WantRevisions(v, ids) => map["vaultId" := Text(v.text), "revisionIds" := TextOf(ids)]
    case RevisionHeader(h) => EncodeHeader(h)
    case RevisionAck(id, accepted, reason) =>
      With(map["revisionId" := Text(id.text), "accepted" := Boolean(accepted)], "reason", reason)
    case TransferCancel(seqNo, reason) => map["transferSeq" := Number(seqNo as real), "reason" := Text(reason)]
    case SyncComplete(v) => map["vaultId" := Text(v.text)]
    case Bye => map[]
    case Error(code, text) => map["code" := Text(CodeText(code)), "message" := Text(text)]
  }

  function TagText(m: Message): string {
    match m
    case Hello(_, _, _, _, _) => "hello"
    case Auth(_) => "auth"
    case VaultSummary(_, _, _, _) => "vault-summary"
    case HistorySummary(_, _) => "history-summary"
    case WantRevisions(_, _) => "want-revisions"
    case RevisionHeader(_) => "revision-header"
    case RevisionAck(_, _, _) => "revision-ack"
    case TransferCancel(_, _) => "transfer-cancel"
    case SyncComplete(_) => "sync-complete"
    case Bye => "bye"
    case Error(_, _) => "error"
  }

  function Encode(m: Message): Json {
    Record(EncodeFields(m)["type" := Text(TagText(m))])
  }

  // ---- normal form -----------------------------------------------------------------

  predicate NormalIds(ids: seq<RevisionId>, limit: nat) {
    |ids| <= limit && forall i :: 0 <= i < |ids| ==> Bounded(ids[i].text)
  }

  predicate NormalEntry(e: HistoryEntry) {
    Bounded(e.revisionId.text) && IsHex64(e.hash.hex) && e.sizeBytes <= MAX_REVISION_BYTES
    && NormalIds(e.parentIds, MAX_PARENTS_PER_REVISION)
  }

  /** Every bound of the protocol is met and no default would replace a field. */
  predicate Normal(m: Message) {
    match m
    case Hello(_, id, name, key, nonce) => Bounded(id.text) && Bounded(name) && Bounded(key) && Bounded(nonce)
    case Auth(signature) => Bounded(signature)
    case VaultSummary(v, name, _, head) => Bounded(v.text) && Bounded(name) && (head.Some? ==> Bounded(head.value.text))
    case HistorySummary(v, entries) =>
      Bounded(v.text) && |entries| <= MAX_HISTORY_NODES && forall i :: 0 <= i < |entries| ==> NormalEntry(entries[i])
    case WantRevisions(v, ids) => Bounded(v.text) && NormalIds(ids, MAX_WANTED_REVISIONS)
    case RevisionHeader(h) =>
      && Bounded(h.vaultId.text) && Bounded(h.revisionId.text) && IsHex64(h.hash.hex) && h.sizeBytes <= MAX_REVISION_BYTES
      && h.totalChunks <= MAX_CHUNKS && NormalIds(h.parentIds, MAX_PARENTS_PER_REVISION)
      && (h.message.Some? ==> Bounded(h.message.value))
    case RevisionAck(id, _, reason) => Bounded(id.text) && (reason.Some? ==> |reason.value| <= MAX_STRING_LENGTH)
    case TransferCancel(_, reason) => Bounded(reason)
    case SyncComplete(v) => Bounded(v.text)
    case Bye => true
    case Error(_, text) => |text| <= MAX_STRING_LENGTH
  }

  lemma {:induction false} IdsAreNormal(items: seq<Json>)
    ensures Ids(items).Some? ==> NormalIds(Ids(items).value, |items|)
  {
    if |items| > 0 {
      IdsAreNormal(items[..|items| - 1]);
    }
  }

  lemma {:induction false} EntriesAreNormal(rows: seq<Json>)
    ensures Entries(rows).Ok? ==>
      |Entries(rows).value| == |rows| && forall i :: 0 <= i < |rows| ==> NormalEntry(Entries(rows).value[i])
  {
    if |rows| > 0 {
      EntriesAreNormal(rows[..|rows| - 1]);
      if Entry(rows[|rows| - 1]).Ok? {
        EntryIsNormal(rows[|rows| - 1]);
      }
    }
  }

  lemma EntryIsNormal(row: Json)
    requires Entry(row).Ok?
    ensures NormalEntry(Entry(row).value)
  {
    IdsAreNormal(Items(Get(row.fields, "parentIds")).value);
  }

  /** Whatever the JSON, what the parser lets through meets every bound. */
  lemma ParsedIsNormal(v: Json)
    requires Parse(v).Ok?
    ensures Normal(Parse(v).value)
  {
    hide TagOf, Ids, Entries, NormalIds, NormalEntry, IsHex64;
    var o, tag := v.fields, TagOf(v.fields["type"].text).value;
    match tag
    case HistorySummaryTag => EntriesAreNormal(Items(Get(o, "revisions")).value);
    case WantRevisionsTag => ListIsNormal(Items(Get(o, "revisionIds")).value, MAX_WANTED_REVISIONS);
    case RevisionHeaderTag => ListIsNormal(Items(Get(o, "parentIds")).value, MAX_PARENTS_PER_REVISION);
    case _ =>
  }

  lemma {:induction false} ListIsNormal(items: seq<Json>, limit: nat)
    requires Ids(items).Some? && |items| <= limit
    ensures NormalIds(Ids(items).value, limit)
  {
    IdsAreNormal(items);
  }

  lemma {:induction false} EncodedIds(ids: seq<RevisionId>, limit: nat)
    requires NormalIds(ids, limit)
    ensures TextOf(ids).List? && |TextOf(ids).items| == |ids| && Ids(TextOf(ids).items) == Some(ids)
  {
    if |ids| > 0 {
      var n := |ids| - 1;
      EncodedIds(ids[..n], limit);
      assert TextOf(ids).items[..n] == TextOf(ids[..n]).items;
      assert ids == ids[..n] + [ids[n]];
    }
  }

  lemma EncodedEntry(e: HistoryEntry)
    requires NormalEntry(e)
    ensures Entry(EncodeEntry(e)) == Ok(e)
  {
    EncodedIds(e.parentIds, MAX_PARENTS_PER_REVISION);
    hide NormalIds, Ids, TextOf, IsHex64;
  }

  lemma {:induction false} EncodedEntries(es: seq<HistoryEntry>, rows: seq<Json>)
    requires |rows| == |es| && forall i :: 0 <= i < |es| ==> NormalEntry(es[i]) && rows[i] == EncodeEntry(es[i])
    ensures Entries(rows) == Ok(es)
  {
    hide Entry, EncodeEntry, NormalEntry;
    if |es| > 0 {
      var n := |es| - 1;
      EncodedEntries(es[..n], rows[..n]);
      EncodedEntry(es[n]);
      assert es == es[..n] + [es[n]];
    }
  }

  lemma TagsRoundTrip(m: Message)
    ensures TagOf(TagText(m)).Some?
    ensures var t := TagOf(TagText(m)).value;
      match m
      case Hello(_, _, _, _, _) => t == HelloTag
      case Auth(_) => t == AuthTag
      case VaultSummary(_, _, _, _) => t == VaultSummaryTag
      case HistorySummary(_, _) => t == HistorySummaryTag
      case WantRevisions(_, _) => t == WantRevisionsTag
      case RevisionHeader(_) => t == RevisionHeaderTag
      case RevisionAck(_, _, _) => t == RevisionAckTag
      case TransferCancel(_, _) => t == TransferCancelTag
      case SyncComplete(_) => t == SyncCompleteTag
      case Bye => t == ByeTag
      case Error(_, _) => t == ErrorTag
  {
  }

  lemma CodesRoundTrip(c: ErrorCode)
    ensures CodeOf(CodeText(c)) == c && Bounded(CodeText(c))
  {
  }

  lemma HistoryRoundTrips(v: VaultId, es: seq<HistoryEntry>)
    requires Normal(HistorySummary(v, es))
    ensures ParseHistorySummary(EncodeFields(HistorySummary(v, es))["type" := Text("history-summary")]) == Ok(HistorySummary(v, es))
  {
    hide Entries, NormalEntry, EncodeEntry;
    EncodedEntries(es, seq(|es|, i requires 0 <= i < |es| => EncodeEntry(es[i])));
  }

  lemma WantsRoundTrip(v: VaultId, ids: seq<RevisionId>)
    requires Normal(WantRevisions(v, ids))
    ensures ParseWantRevisions(EncodeFields(WantRevisions(v, ids))["type" := Text("want-revisions")]) == Ok(WantRevisions(v, ids))
  {
    hide Ids, TextOf;
    EncodedIds(ids, MAX_WANTED_REVISIONS);
  }

  lemma HeaderRoundTrips(h: Header)
    requires Normal(RevisionHeader(h))
    ensures ParseRevisionHeader(EncodeFields(RevisionHeader(h))["type" := Text("revision-header")]) == Ok(RevisionHeader(h))
  {
    hide Ids, TextOf, IsHex64;
    EncodedIds(h.parentIds, MAX_PARENTS_PER_REVISION);
  }

  lemma ErrorRoundTrips(c: ErrorCode, text: string)
    requires Normal(Error(c, text))
    ensures ParseError(EncodeFields(Error(c, text))["type" := Text("error")]) == Ok(Error(c, text))
  {
    hide CodeOf, CodeText;
    CodesRoundTrip(c);
    assert |text| == 0 ==> text == "";
  }

  lemma HelloRoundTrips(m: Message)
    requires m.Hello? && Normal(m)
    ensures ParseHello(EncodeFields(m)["type" := Text("hello")]) == Ok(m)
  {
  }

  lemma SummaryRoundTrips(m: Message)
    requires m.VaultSummary? && Normal(m)
    ensures ParseVaultSummary(EncodeFields(m)["type" := Text("vault-summary")]) == Ok(m)
  {
  }

  lemma ShortRoundTrips(m: Message)
    requires Normal(m)
    ensures var o := EncodeFields(m)["type" := Text(TagText(m))];
      && (m.Auth? ==> ParseAuth(o) == Ok(m)) && (m.RevisionAck? ==> ParseRevisionAck(o) == Ok(m))
      && (m.TransferCancel? ==> ParseTransferCancel(o) == Ok(m)) && (m.SyncComplete? ==> ParseSyncComplete(o) == Ok(m))
  {
    hide EncodeHeader, TextOf, EncodeEntry, CodeText;
  }

  lemma ParsesByTag(m: Message)
    ensures TagOf(TagText(m)).Some?
    ensures Parse(Encode(m)) == ParseAs(TagOf(TagText(m)).value, EncodeFields(m)["type" := Text(TagText(m))])
  {
    hide TagOf, TagText, EncodeFields, ParseAs;
    TagsRoundTrip(m);
  }

  /** A message in normal form survives the trip. */
  lemma NormalRoundTrips(m: Message)
    requires Normal(m)
    ensures Parse(Encode(m)) == Ok(m)
  {
    hide Parse, Encode, TagOf, EncodeFields, Normal, ParseHello, ParseAuth, ParseVaultSummary, ParseHistorySummary;
    hide ParseWantRevisions, ParseRevisionHeader, ParseRevisionAck, ParseTransferCancel, ParseSyncComplete, ParseError;
    ParsesByTag(m);
    TagsRoundTrip(m);
    match m
    case Hello(_, _, _, _, _) => HelloRoundTrips(m);
    case VaultSummary(_, _, _, _) => SummaryRoundTrips(m);
    case HistorySummary(v, es) => HistoryRoundTrips(v, es);
    case WantRevisions(v, ids) => WantsRoundTrip(v, ids);
    case RevisionHeader(h) => HeaderRoundTrips(h);
    case Error(c, text) => ErrorRoundTrips(c, text);
    case Bye =>
    case _ => ShortRoundTrips(m);
  }

  /** Parsing what was parsed and sent on yields it again. */
  lemma ParsedRoundTrips(v: Json)
    requires Parse(v).Ok?
    ensures Parse(Encode(Parse(v).value)) == Parse(v)
  {
    hide Parse, Encode, Normal;
    ParsedIsNormal(v);
    NormalRoundTrips(Parse(v).value);
  }

  /** The plain round trip holds for exactly the messages in normal form. */
  lemma RoundTripIff(m: Message)
    ensures Parse(Encode(m)) == Ok(m) <==> Normal(m)
  {
    hide Parse, Encode, Normal;
    if Parse(Encode(m)) == Ok(m) {
      ParsedIsNormal(Encode(m));
    }
    if Normal(m) {
      NormalRoundTrips(m);
    }
  }

  /** An empty vault name comes back as the default. */
  lemma EmptyNameIsReplaced(v: VaultId, count: nat)
    requires Bounded(v.text)
    ensures Parse(Encode(VaultSummary(v, "", count, None))) == Ok(VaultSummary(v, "Shared vault", count, None))
  {
    TagsRoundTrip(VaultSummary(v, "", count, None));
    hide TagOf;
  }
}
