/**
 What the control channel accepts, stated field by field with the limits of
 packages/core/src/protocol.ts: which JSON values are messages, what each of them says, and which of the
 others are refused as too much rather than as malformed. The parser meets these rules exactly.
 */
module ProtocolRules {
  import opened Basics
  import opened Store
  import opened Messages
  import opened Protocol

  // ---- fields ----------------------------------------------------------------------

  /** A string of one to 4096 characters. */
  predicate TextValue(j: Json) {
    j.Text? && 1 <= |j.text| <= 4096
  }

  predicate IsText(o: Fields, name: string) {
    name in o && TextValue(o[name])
  }

  predicate IsHash(o: Fields, name: string) {
    name in o && o[name].Text? && |o[name].text| == 64
    && forall i :: 0 <= i < 64 ==> '0' <= o[name].text[i] <= '9' || 'a' <= o[name].text[i] <= 'f'
  }

  predicate IsInteger(o: Fields, name: string) {
    name in o && o[name].Number? && o[name].value.Floor as real == o[name].value
  }

  predicate IsCount(o: Fields, name: string) {
    IsInteger(o, name) && o[name].value >= 0.0
  }

  predicate IsList(o: Fields, name: string) {
    name in o && o[name].List?
  }

  predicate AllText(items: seq<Json>) {
    forall i :: 0 <= i < |items| ==> TextValue(items[i])
  }

  /** At most 64 parents, each a proper string. */
  predicate IsParents(o: Fields) {
    IsList(o, "parentIds") && |o["parentIds"].items| <= 64 && AllText(o["parentIds"].items)
  }

  /** Everything an entry of a history needs before its parents are counted. */
  predicate EntryBegins(row: Json) {
    row.Record? && IsText(row.fields, "revisionId") && IsHash(row.fields, "hash")
    && IsCount(row.fields, "sizeBytes") && row.fields["sizeBytes"].value <= 536_870_912.0 && IsList(row.fields, "parentIds")
  }

  predicate AcceptableEntry(row: Json) {
    EntryBegins(row) && IsParents(row.fields)
  }

  // ---- which values are messages ---------------------------------------------------

  predicate AcceptableAs(kind: string, o: Fields) {
    if kind == "hello" then
      IsText(o, "deviceId") && IsText(o, "deviceName") && IsText(o, "publicKey") && IsText(o, "nonce") && IsInteger(o, "protocolVersion")
    else if kind == "auth" then IsText(o, "signature")
    else if kind == "vault-summary" then IsText(o, "vaultId") && IsCount(o, "revisionCount")
    else if kind == "history-summary" then
      IsText(o, "vaultId") && IsList(o, "revisions") && |o["revisions"].items| <= 100_000
      && forall i :: 0 <= i < |o["revisions"].items| ==> AcceptableEntry(o["revisions"].items[i])
    else if kind == "want-revisions" then
      IsText(o, "vaultId") && IsList(o, "revisionIds") && |o["revisionIds"].items| <= 100_000 && AllText(o["revisionIds"].items)
    else if kind == "revision-header" then
      IsText(o, "vaultId") && IsText(o, "revisionId") && IsHash(o, "hash") && IsCount(o, "transferSeq")
      && IsCount(o, "sizeBytes") && o["sizeBytes"].value <= 536_870_912.0
      && IsCount(o, "totalChunks") && o["totalChunks"].value <= 262_144.0
      && IsParents(o) && ("message" in o ==> IsText(o, "message"))
    else if kind == "revision-ack" then IsText(o, "revisionId") && "accepted" in o && o["accepted"].Boolean?
    else if kind == "transfer-cancel" then IsCount(o, "transferSeq")
    else if kind == "sync-complete" then IsText(o, "vaultId")
    else kind == "bye" || kind == "error"
  }

  predicate Typed(v: Json) {
    v.Record? && "type" in v.fields && v.fields["type"].Text?
  }

  /** The value is a message: it names a known kind, and the fields of that kind are in order. */
  predicate Acceptable(v: Json) {
    Typed(v) && AcceptableAs(v.fields["type"].text, v.fields)
  }

  // ---- what they say ---------------------------------------------------------------

  predicate SameIds(items: seq<Json>, ids: seq<RevisionId>) {
    |ids| == |items| && forall i :: 0 <= i < |items| ==> items[i] == Text(ids[i].text)
  }

  predicate SameEntry(row: Json, e: HistoryEntry)
    requires AcceptableEntry(row)
  {
    row.fields["revisionId"].text == e.revisionId.text && row.fields["hash"].text == e.hash.hex
    && row.fields["sizeBytes"].value == e.sizeBytes as real && SameIds(row.fields["parentIds"].items, e.parentIds)
  }

  /** The field if it is a proper string, else the default. */
  predicate TextOr(o: Fields, name: string, default: string, s: string) {
    if IsText(o, name) then s == o[name].text else s == default
  }

  /** The six error codes by name; any other is taken for an internal error. */
  predicate CodeSays(o: Fields, c: ErrorCode) {
    var name := if IsText(o, "code") then o["code"].text else "internal";
    match c
    case UnsupportedVersion => name == "unsupported-version"
    case Unauthorized => name == "unauthorized"
    case UnknownVault => name == "unknown-vault"
    case MalformedMessage => name == "malformed-message"
    case LimitExceeded => name == "limit-exceeded"
    case Internal => name !in {"unsupported-version", "unauthorized", "unknown-vault", "malformed-message", "limit-exceeded"}
  }

  /** The message says what the value says, field for field; a default stands only for a field that is missing or unusable. */
  predicate Says(v: Json, m: Message)
    requires Acceptable(v)
  {
    var kind, o := v.fields["type"].text, v.fields;
    match m
    case Hello(version, id, name, key, nonce) =>
      kind == "hello" && o["protocolVersion"].value == version as real && o["deviceId"].text == id.text
      && o["deviceName"].text == name && o["publicKey"].text == key && o["nonce"].text == nonce
    case Auth(signature) => kind == "auth" && o["signature"].text == signature
    case VaultSummary(vault, name, count, head) =>
      kind == "vault-summary" && o["vaultId"].text == vault.text && TextOr(o, "vaultName", "Shared vault", name)
      && o["revisionCount"].value == count as real
      && (head.Some? <==> IsText(o, "headRevisionId")) && (head.Some? ==> o["headRevisionId"].text == head.value.text)
    case HistorySummary(vault, entries) =>
      kind == "history-summary" && o["vaultId"].text == vault.text && |entries| == |o["revisions"].items|
      && forall i :: 0 <= i < |entries| ==> SameEntry(o["revisions"].items[i], entries[i])
    case WantRevisions(vault, ids) =>
      kind == "want-revisions" && o["vaultId"].text == vault.text && SameIds(o["revisionIds"].items, ids)
    case RevisionHeader(h) =>
      kind == "revision-header" && o["transferSeq"].value == h.transferSeq as real && o["vaultId"].text == h.vaultId.text
      && o["revisionId"].text == h.revisionId.text && o["hash"].text == h.hash.hex && o["sizeBytes"].value == h.sizeBytes as real
      && SameIds(o["parentIds"].items, h.parentIds) && o["totalChunks"].value == h.totalChunks as real
      && (h.message.Some? <==> "message" in o) && (h.message.Some? ==> o["message"].text == h.message.value)
    case RevisionAck(id, accepted, reason) =>
      kind == "revision-ack" && o["revisionId"].text == id.text && o["accepted"].flag == accepted
      && (reason.Some? <==> "reason" in o && o["reason"].Text?)
      && (reason.Some? ==> reason.value == o["reason"].text[..if |o["reason"].text| < 4096 then |o["reason"].text| else 4096])
    case TransferCancel(seqNo, reason) =>
      kind == "transfer-cancel" && o["transferSeq"].value == seqNo as real && TextOr(o, "reason", "cancelled", reason)
    case SyncComplete(vault) => kind == "sync-complete" && o["vaultId"].text == vault.text
    case Bye => kind == "bye"
    case Error(code, text) => kind == "error" && CodeSays(o, code) && TextOr(o, "message", "", text)
  }

  // ---- what is too much ------------------------------------------------------------

  /** The first entry that is not acceptable has too many parents, and nothing before that is wrong with it. */
  predicate EntryTooMuch(rows: seq<Json>) {
    exists i :: 0 <= i < |rows| && EntryBegins(rows[i]) && |rows[i].fields["parentIds"].items| > 64
      && forall k :: 0 <= k < i ==> AcceptableEntry(rows[k])
  }

  predicate TooMuch(v: Json) {
    Typed(v) && var kind, o := v.fields["type"].text, v.fields;
    if kind == "history-summary" then
      IsText(o, "vaultId") && IsList(o, "revisions") && (|o["revisions"].items| > 100_000 || EntryTooMuch(o["revisions"].items))
    else if kind == "want-revisions" then IsText(o, "vaultId") && IsList(o, "revisionIds") && |o["revisionIds"].items| > 100_000
    else if kind == "revision-header" then
      IsText(o, "vaultId") && IsText(o, "revisionId") && IsHash(o, "hash") && IsCount(o, "transferSeq")
      && !(IsCount(o, "sizeBytes") && o["sizeBytes"].value <= 536_870_912.0
           && IsCount(o, "totalChunks") && o["totalChunks"].value <= 262_144.0)
    else false
  }

  // ---- lists -----------------------------------------------------------------------

  lemma {:induction false} IdsFollow(items: seq<Json>)
    ensures Ids(items).Some? <==> AllText(items)
    ensures Ids(items).Some? ==> SameIds(items, Ids(items).value)
  {
    if |items| > 0 {
      IdsFollow(items[..|items| - 1]);
      assert forall i :: 0 <= i < |items| - 1 ==> items[..|items| - 1][i] == items[i];
    }
  }

  lemma SameIdsUnique(items: seq<Json>, ids: seq<RevisionId>, ids': seq<RevisionId>)
    requires SameIds(items, ids) && SameIds(items, ids')
    ensures ids == ids'
  {
    forall i | 0 <= i < |items|
      ensures ids[i] == ids'[i]
    {
      assert Text(ids[i].text) == Text(ids'[i].text);
    }
  }

  lemma HashFollows(o: Fields, name: string)
    ensures Hex64(Get(o, name)).Some? <==> IsHash(o, name)
    ensures IsHash(o, name) ==> Hex64(Get(o, name)).value.hex == o[name].text
  {
  }

  lemma CountFollows(o: Fields, name: string)
    ensures Whole(Get(o, name)).Some? <==> IsInteger(o, name)
    ensures IsInteger(o, name) ==> Whole(Get(o, name)).value as real == o[name].value
    ensures Count(Get(o, name)).Some? <==> IsCount(o, name)
    ensures IsCount(o, name) ==> Count(Get(o, name)).value as real == o[name].value
  {
  }

  lemma EntryFollows(row: Json)
    ensures Entry(row).Ok? <==> AcceptableEntry(row)
    ensures Entry(row).Ok? ==> SameEntry(row, Entry(row).value)
    ensures Entry(row) == Err(LimitExceeded) <==> EntryBegins(row) && |row.fields["parentIds"].items| > 64
    ensures Entry(row).Err? ==> Entry(row).error in {LimitExceeded, MalformedMessage}
  {
    hide Ids, Hex64, Count, IsHash, SameIds, AllText;
    if row.Record? {
      HashFollows(row.fields, "hash");
      CountFollows(row.fields, "sizeBytes");
      hide IsCount;
      if IsList(row.fields, "parentIds") {
        IdsFollow(row.fields["parentIds"].items);
      }
    }
  }

  lemma {:induction false} EntriesFollow(rows: seq<Json>)
    ensures Entries(rows).Ok? <==> forall i :: 0 <= i < |rows| ==> AcceptableEntry(rows[i])
    ensures Entries(rows).Ok? ==> |Entries(rows).value| == |rows| && forall i :: 0 <= i < |rows| ==> SameEntry(rows[i], Entries(rows).value[i])
    ensures Entries(rows) == Err(LimitExceeded) <==> EntryTooMuch(rows)
    ensures Entries(rows).Err? ==> Entries(rows).error in {LimitExceeded, MalformedMessage}
  {
    hide Entry, AcceptableEntry, SameEntry, EntryBegins;
    if |rows| > 0 {
      var before, last := rows[..|rows| - 1], rows[|rows| - 1];
      EntriesFollow(before);
      EntryFollows(last);
      assert forall i :: 0 <= i < |before| ==> before[i] == rows[i];
      TooMuchGrows(before, last);
      assert rows == before + [last];
    }
  }

  lemma BeginsIsRecord(row: Json)
    ensures EntryBegins(row) ==> row.Record? && IsList(row.fields, "parentIds")
    ensures EntryBegins(row) && |row.fields["parentIds"].items| > 64 ==> !AcceptableEntry(row)
  {
  }

  lemma TooMuchGrows(rows: seq<Json>, last: Json)
    ensures EntryTooMuch(rows + [last]) <==>
      EntryTooMuch(rows)
      || (EntryBegins(last) && |last.fields["parentIds"].items| > 64 && forall k :: 0 <= k < |rows| ==> AcceptableEntry(rows[k]))
    ensures EntryTooMuch(rows) ==> exists i :: 0 <= i < |rows| && !AcceptableEntry(rows[i])
  {
    hide AcceptableEntry, EntryBegins;
    var all := rows + [last];
    assert forall i :: 0 <= i < |rows| ==> all[i] == rows[i];
    forall row | row in all
      ensures EntryBegins(row) ==> row.Record? && IsList(row.fields, "parentIds")
      ensures EntryBegins(row) && |row.fields["parentIds"].items| > 64 ==> !AcceptableEntry(row)
    {
      BeginsIsRecord(row);
    }
    assert all[|rows|] == last;
    if EntryTooMuch(rows) {
      var i :| 0 <= i < |rows| && EntryBegins(rows[i]) && |rows[i].fields["parentIds"].items| > 64
        && forall k :: 0 <= k < i ==> AcceptableEntry(rows[k]);
      assert rows[i] in all && all[i] == rows[i];
    }
  }

  // ---- kind by kind ----------------------------------------------------------------

  /** What one kind's parser must make of the fields. */
  ghost predicate Follows(v: Json, r: Result<Message, ErrorCode>) {
    && (r.Ok? <==> Acceptable(v)) && (r.Ok? ==> Says(v, r.value))
    && (r == Err(LimitExceeded) <==> TooMuch(v)) && (r.Err? ==> r.error in {LimitExceeded, MalformedMessage})
  }

  lemma HelloFollows(v: Json)
    requires Typed(v) && v.fields["type"].text == "hello"
    ensures Follows(v, ParseHello(v.fields))
  {
    hide Whole, IsInteger;
    CountFollows(v.fields, "protocolVersion");
  }

  lemma AuthFollows(v: Json)
    requires Typed(v) && v.fields["type"].text == "auth"
    ensures Follows(v, ParseAuth(v.fields))
  {
  }

  lemma VaultSummaryFollows(v: Json)
    requires Typed(v) && v.fields["type"].text == "vault-summary"
    ensures Follows(v, ParseVaultSummary(v.fields))
  {
    hide Count, IsCount;
    CountFollows(v.fields, "revisionCount");
  }

  lemma HistoryFollows(v: Json)
    requires Typed(v) && v.fields["type"].text == "history-summary"
    ensures Follows(v, ParseHistorySummary(v.fields))
  {
    hide Entries, AcceptableEntry, EntryTooMuch, SameEntry;
    if IsList(v.fields, "revisions") {
      EntriesFollow(v.fields["revisions"].items);
    }
  }

  lemma WantsFollow(v: Json)
    requires Typed(v) && v.fields["type"].text == "want-revisions"
    ensures Follows(v, ParseWantRevisions(v.fields))
  {
    hide Ids, AllText, SameIds;
    if IsList(v.fields, "revisionIds") {
      IdsFollow(v.fields["revisionIds"].items);
    }
  }

  lemma HeaderFollows(v: Json)
    requires Typed(v) && v.fields["type"].text == "revision-header"
    ensures Follows(v, ParseRevisionHeader(v.fields))
  {
    hide Ids, AllText, SameIds, Count, IsCount, Hex64, IsHash;
    var o := v.fields;
    HashFollows(o, "hash");
    CountFollows(o, "transferSeq");
    CountFollows(o, "sizeBytes");
    CountFollows(o, "totalChunks");
    CountIsNumber(o, "sizeBytes");
    CountIsNumber(o, "totalChunks");
    if IsList(o, "parentIds") {
      IdsFollow(o["parentIds"].items);
    }
  }

  lemma CountIsNumber(o: Fields, name: string)
    ensures IsCount(o, name) ==> name in o && o[name].Number?
  {
  }

  lemma AckFollows(v: Json)
    requires Typed(v) && v.fields["type"].text == "revision-ack"
    ensures Follows(v, ParseRevisionAck(v.fields))
  {
    if "reason" in v.fields && v.fields["reason"].Text? {
      var text := v.fields["reason"].text;
      assert text[..|text|] == text;
    }
  }

  lemma CancelFollows(v: Json)
    requires Typed(v) && v.fields["type"].text == "transfer-cancel"
    ensures Follows(v, ParseTransferCancel(v.fields))
  {
    hide Count, IsCount;
    CountFollows(v.fields, "transferSeq");
  }

  lemma CompleteFollows(v: Json)
    requires Typed(v) && v.fields["type"].text == "sync-complete"
    ensures Follows(v, ParseSyncComplete(v.fields))
  {
  }

  lemma ErrorFollows(v: Json)
    requires Typed(v) && v.fields["type"].text == "error"
    ensures Follows(v, ParseError(v.fields))
  {
  }

  lemma UnknownKind(v: Json)
    ensures !Typed(v) || TagOf(v.fields["type"].text).None? ==> !Acceptable(v) && !TooMuch(v)
  {
  }

  lemma KnownKind(v: Json, t: Tag)
    requires Typed(v) && TagOf(v.fields["type"].text) == Some(t)
    ensures v.fields["type"].text == match t
      case HelloTag => "hello"
      case AuthTag => "auth"
      case VaultSummaryTag => "vault-summary"
      case HistorySummaryTag => "history-summary"
      case WantRevisionsTag => "want-revisions"
      case RevisionHeaderTag => "revision-header"
      case RevisionAckTag => "revision-ack"
      case TransferCancelTag => "transfer-cancel"
      case SyncCompleteTag => "sync-complete"
      case ByeTag => "bye"
      case ErrorTag => "error"
  {
  }

  lemma ByeFollows(v: Json)
    requires Typed(v) && v.fields["type"].text == "bye"
    ensures Follows(v, Ok(Bye))
  {
  }

  /**
   The parser lets through exactly the acceptable values; what it yields says what the value says, field
   for field; and of the others it refuses exactly those that are too much as such, the rest as malformed.
   */
  lemma ParseFollows(v: Json)
    ensures Parse(v).Ok? <==> Acceptable(v)
    ensures Parse(v).Ok? ==> Says(v, Parse(v).value)
    ensures Parse(v) == Err(LimitExceeded) <==> TooMuch(v)
    ensures Parse(v).Err? ==> Parse(v).error in {LimitExceeded, MalformedMessage}
  {
    hide TagOf, ParseHello, ParseAuth, ParseVaultSummary, ParseHistorySummary, ParseWantRevisions, ParseRevisionHeader;
    hide ParseRevisionAck, ParseTransferCancel, ParseSyncComplete, ParseError, Acceptable, Says, TooMuch;
    UnknownKind(v);
    if Typed(v) && TagOf(v.fields["type"].text).Some? {
      var t := TagOf(v.fields["type"].text).value;
      KnownKind(v, t);
      match t
      case HelloTag => HelloFollows(v);
      case AuthTag => AuthFollows(v);
      case VaultSummaryTag => VaultSummaryFollows(v);
      case HistorySummaryTag => HistoryFollows(v);
      case WantRevisionsTag => WantsFollow(v);
      case RevisionHeaderTag => HeaderFollows(v);
      case RevisionAckTag => AckFollows(v);
      case TransferCancelTag => CancelFollows(v);
      case SyncCompleteTag => CompleteFollows(v);
      case ByeTag => ByeFollows(v);
      case ErrorTag => ErrorFollows(v);
    }
  }

  // ---- a value says one thing --------------------------------------------------------

  lemma EntriesUnique(rows: seq<Json>, es: seq<HistoryEntry>, es': seq<HistoryEntry>)
    requires |es| == |rows| == |es'| && forall i :: 0 <= i < |rows| ==> AcceptableEntry(rows[i])
    requires forall i :: 0 <= i < |rows| ==> SameEntry(rows[i], es[i]) && SameEntry(rows[i], es'[i])
    ensures es == es'
  {
    hide AcceptableEntry, SameIds;
    forall i | 0 <= i < |rows|
      ensures es[i] == es'[i]
    {
      EntryUnique(rows[i], es[i], es'[i]);
    }
  }

  lemma EntryUnique(row: Json, e: HistoryEntry, e': HistoryEntry)
    requires AcceptableEntry(row) && SameEntry(row, e) && SameEntry(row, e')
    ensures e == e'
  {
    hide SameIds, AllText, IsHash;
    SameIdsUnique(row.fields["parentIds"].items, e.parentIds, e'.parentIds);
  }

  lemma HistoryUnique(v: Json, m: Message, m': Message)
    requires Acceptable(v) && Says(v, m) && Says(v, m') && m.HistorySummary?
    ensures m == m'
  {
    hide AcceptableEntry, SameEntry, SameIds, AllText;
    EntriesUnique(v.fields["revisions"].items, m.revisions, m'.revisions);
  }

  lemma ListsUnique(v: Json, m: Message, m': Message)
    requires Acceptable(v) && Says(v, m) && Says(v, m') && (m.WantRevisions? || m.RevisionHeader?)
    ensures m == m'
  {
    hide SameIds, AllText, IsHash, IsCount, AcceptableEntry, SameEntry;
    if m.WantRevisions? {
      SameIdsUnique(v.fields["revisionIds"].items, m.revisionIds, m'.revisionIds);
    } else {
      SameIdsUnique(v.fields["parentIds"].items, m.header.parentIds, m'.header.parentIds);
    }
  }

  lemma PlainUnique(v: Json, m: Message, m': Message)
    requires Acceptable(v) && Says(v, m) && Says(v, m') && !m.HistorySummary? && !m.WantRevisions? && !m.RevisionHeader?
    ensures m == m'
  {
    hide SameIds, AllText, IsHash, AcceptableEntry, SameEntry;
  }

  /** The parser yields a message exactly if the value is acceptable and says that message. */
  lemma ParsedIff(v: Json, m: Message)
    ensures Parse(v) == Ok(m) <==> Acceptable(v) && Says(v, m)
  {
    hide Parse, Acceptable, Says, TooMuch;
    ParseFollows(v);
    if Acceptable(v) && Says(v, m) {
      var parsed := Parse(v).value;
      if m.HistorySummary? {
        HistoryUnique(v, m, parsed);
      } else if m.WantRevisions? || m.RevisionHeader? {
        ListsUnique(v, m, parsed);
      } else {
        PlainUnique(v, m, parsed);
      }
    }
  }
}
