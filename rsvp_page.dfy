/**
 * The RSVP page (src/pages/RSVPPage.tsx): its WhatsApp connection fields,
 * driven by socket events and two commands; the invitation dialog's state,
 * written by the invitation form's callbacks; and the log table with its
 * statistics. Network results and locale formatting are inputs.
 */
module RsvpPageState {
  import opened Wrappers
  import opened Types
  import opened FormFields
  import opened InviteTemplate
  import opened WhatsAppConnection

  /** One delivery attempt of a log entry. */
  datatype Attempt = Attempt(status: string, timestamp: string)

  /** A log entry as the logs endpoint returns it; an absent field is `None`. */
  datatype LogRecord = LogRecord(
    id: string,
    name: Option<string>,
    number: Option<string>,
    inviteType: Option<string>,
    response: Option<string>,
    attempts: Option<seq<Attempt>>)

  /** The body of a successful logs request. */
  datatype LogsResponse = LogsResponse(tableData: seq<LogRecord>, stats: Option<RsvpStats>)

  /** `value || fallback` on an optional string. */
  function OrElse(o: Option<string>, fallback: string): (r: string)
    ensures o.Some? && o.value != "" ==> r == o.value
    ensures o.None? || o.value == "" ==> r == fallback
  {
    if o.Some? && o.value != "" then o.value else fallback
  }

  /** `log.attempts?.[log.attempts.length - 1] ?? null`. */
  function LatestAttempt(attempts: Option<seq<Attempt>>): (r: Option<Attempt>)
    ensures r.Some? <==> attempts.Some? && |attempts.value| > 0
    ensures r.Some? ==> r.value == attempts.value[|attempts.value| - 1]
  {
    if attempts.Some? && |attempts.value| > 0 then Some(attempts.value[|attempts.value| - 1]) else None
  }

  /** One table row built from a log entry at position `index`; `localize` is `new Date(ts).toLocaleString()`. */
  function TransformRow(log: LogRecord, index: nat, localize: string -> string): Row {
    var latest := LatestAttempt(log.attempts);
    Row(
      log.id,
      index + 1,
      OrElse(log.name, "N/A"),
      OrElse(log.number, "N/A"),
      OrElse(log.inviteType, "N/A"),
      if latest.Some? then OrElse(Some(latest.value.status), "N/A") else "N/A",
      OrElse(log.response, "No responses"),
      if latest.Some? && latest.value.timestamp != "" then localize(latest.value.timestamp) else "N/A")
  }

  /** The rows of the table, one per log entry, in order (`tableData.map(...)`). */
  function TransformLogs(logs: seq<LogRecord>, localize: string -> string): (rows: seq<Row>)
    ensures |rows| == |logs|
    ensures forall i :: 0 <= i < |logs| ==> rows[i] == TransformRow(logs[i], i, localize)
  {
    seq(|logs|, i requires 0 <= i < |logs| => TransformRow(logs[i], i, localize))
  }

  /** Row numbers run 1, 2, ..., n and ids are copied, so distinct ids stay distinct. */
  lemma TransformLogsNumbering(logs: seq<LogRecord>, localize: string -> string)
    ensures var rows := TransformLogs(logs, localize);
            (forall i :: 0 <= i < |rows| ==> rows[i].srNo == i + 1 && rows[i].id == logs[i].id)
            && (forall i, j :: 0 <= i < j < |rows| ==> rows[i].srNo != rows[j].srNo)
  {
  }

  /** Status and timestamp come from the last attempt; an empty field there still reads "N/A". */
  lemma RowFromLatestAttempt(log: LogRecord, index: nat, localize: string -> string)
    requires log.attempts.Some? && |log.attempts.value| > 0
    ensures var a := log.attempts.value[|log.attempts.value| - 1];
            var row := TransformRow(log, index, localize);
            row.status == (if a.status == "" then "N/A" else a.status)
            && row.timestamp == (if a.timestamp == "" then "N/A" else localize(a.timestamp))
  {
  }

  /** Without attempts there is neither status nor timestamp; missing fields read "N/A", a missing response "No responses". */
  lemma RowDefaults(log: LogRecord, index: nat, localize: string -> string)
    ensures var row := TransformRow(log, index, localize);
            (log.attempts.None? || log.attempts.value == [] ==> row.status == "N/A" && row.timestamp == "N/A")
            && (log.name.None? ==> row.name == "N/A")
            && (log.number.None? ==> row.phone == "N/A")
            && (log.inviteType.None? ==> row.inviteType == "N/A")
            && (log.response.None? ==> row.responses == "No responses")
            && (log.name.Some? && log.name.value != "" ==> row.name == log.name.value)
  {
  }

  /** `inviteTypes.reduce((sum, type) => sum + type.count, 0)`: a left fold, so the last element is added last. */
  function SumCounts(ts: seq<Tally>): int
    decreases |ts|
  {
    if ts == [] then 0 else SumCounts(ts[..|ts| - 1]) + ts[|ts| - 1].count
  }

  lemma {:induction false} SumCountsAppend(a: seq<Tally>, b: seq<Tally>)
    ensures SumCounts(a + b) == SumCounts(a) + SumCounts(b)
    decreases |b|
  {
    if b == [] {
      assert a + b == a;
    } else {
      var b' := b[..|b| - 1];
      assert (a + b)[..|a + b| - 1] == a + b';
      assert (a + b)[|a + b| - 1] == b[|b| - 1];
      SumCountsAppend(a, b');
    }
  }

  /** With counts that are not negative, the total bounds every single count. */
  lemma {:induction false} SumCountsBounds(ts: seq<Tally>, i: nat)
    requires i < |ts|
    requires forall k :: 0 <= k < |ts| ==> ts[k].count >= 0
    ensures SumCounts(ts) >= ts[i].count
    ensures SumCounts(ts) >= 0
    decreases |ts|
  {
    var init := ts[..|ts| - 1];
    if i < |ts| - 1 {
      SumCountsBounds(init, i);
    } else if init != [] {
      SumCountsBounds(init, 0);
    }
  }

  /** The figures on the three cards. */
  datatype Figures = Figures(total: int, yesCount: int, yesPercentage: string, noCount: int, noPercentage: string)

  /** `memoizedStats`: nothing without statistics; otherwise the total and the two response tallies. */
  function MemoizedStats(stats: Option<RsvpStats>): (r: Option<Figures>)
    ensures r.None? <==> stats.None?
    ensures r.Some? ==> r.value.total == SumCounts(stats.value.inviteTypes)
    ensures r.Some? ==> r.value.yesPercentage == stats.value.yes.percentage + "%"
                        && r.value.noPercentage == stats.value.no.percentage + "%"
    ensures r.Some? ==> r.value.yesCount == stats.value.yes.count && r.value.noCount == stats.value.no.count
  {
    match stats
    case None => None
    case Some(s) =>
      Some(Figures(SumCounts(s.inviteTypes), s.yes.count, s.yes.percentage + "%", s.no.count, s.no.percentage + "%"))
  }

  /** What the cards show: zeros and "0.0%" without statistics. */
  function CardFigures(m: Option<Figures>): (f: Figures)
    ensures m.None? ==> f == Figures(0, 0, "0.0%", 0, "0.0%")
    ensures m.Some? ==> f == m.value
  {
    // A formatted percentage always ends in '%', so it is never falsy.
    if m.Some? then m.value else Figures(0, 0, "0.0%", 0, "0.0%")
  }

  /** The hint under the invitation dialog. */
  datatype Tip = InvalidTip(invalid: seq<string>) | CorrectTip(placeholders: seq<string>) | SelectCsvTip | NoTip

  /** `tip`: invalid parameters first, then the recognised ones, then the missing CSV (src/pages/RSVPPage.tsx:187-216). */
  function TipFor(invalid: seq<string>, placeholders: seq<string>, csv: FormValue): (t: Tip)
    ensures t.InvalidTip? <==> invalid != []
    ensures t.CorrectTip? <==> invalid == [] && placeholders != []
    ensures t.SelectCsvTip? <==> invalid == [] && placeholders == [] && IsFalsy(csv)
    ensures t.InvalidTip? ==> t.invalid == invalid
    ensures t.CorrectTip? ==> t.placeholders == placeholders
  {
    if |invalid| > 0 then InvalidTip(invalid)
    else if |placeholders| > 0 then CorrectTip(placeholders)
    else if IsFalsy(csv) then SelectCsvTip
    else NoTip
  }

  /** A part of the import request's form data; the CSV file itself is a file part. */
  datatype Part = FilePart(key: string) | TextPart(key: string, value: string)

  /** `values.field || ""` for a text field. */
  function TextOf(values: FormValues, field: string): string {
    match ValueOf(values, field)
    case Text(s) => s
    case _ => ""
  }

  /**
   * The form data `handleSend` builds (src/pages/RSVPPage.tsx:299-321); `csvUrl` and
   * `mediaUrl` are the uploaded files' addresses when a file was chosen.
   */
  function ImportParts(values: FormValues, csvUrl: Option<string>, mediaUrl: Option<string>,
                       weddingId: Option<string>, number: Option<string>): (parts: seq<Part>)
    ensures |parts| == 4 + (if csvUrl.Some? then 2 else 0) + (if mediaUrl.Some? then 1 else 0)
    ensures parts[|parts| - 4..] == [TextPart("inviteType", TextOf(values, "inviteType")),
                                     TextPart("template", TextOf(values, "template")),
                                     TextPart("weddingId", OrElse(weddingId, "")),
                                     TextPart("senderNumber", OrElse(number, ""))]
    ensures csvUrl.Some? ==> parts[..2] == [FilePart("file"), TextPart("csvUrl", csvUrl.value)]
    ensures mediaUrl.Some? ==> parts[|parts| - 5] == TextPart("attachmentUrl", mediaUrl.value)
  {
    var csv := if csvUrl.Some? then [FilePart("file"), TextPart("csvUrl", csvUrl.value)] else [];
    var media := if mediaUrl.Some? then [TextPart("attachmentUrl", mediaUrl.value)] else [];
    var fields := [TextPart("inviteType", TextOf(values, "inviteType")),
                   TextPart("template", TextOf(values, "template")),
                   TextPart("weddingId", OrElse(weddingId, "")),
                   TextPart("senderNumber", OrElse(number, ""))];
    var r := csv + media + fields;
    assert r[|r| - 4..] == fields;
    assert csvUrl.Some? ==> r[..2] == csv;
    assert mediaUrl.Some? ==> r[|r| - 5] == media[0];
    r
  }

  /** Without a media file the form data carries no attachment URL. */
  lemma NoAttachmentWithoutMedia(values: FormValues, csvUrl: Option<string>, weddingId: Option<string>, number: Option<string>)
    ensures var parts := ImportParts(values, csvUrl, None, weddingId, number);
            forall i :: 0 <= i < |parts| ==> parts[i].key != "attachmentUrl"
  {
    var parts := ImportParts(values, csvUrl, None, weddingId, number);
    assert |parts| == 4 + (if csvUrl.Some? then 2 else 0);
    forall i | 0 <= i < |parts|
      ensures parts[i].key != "attachmentUrl"
    {
      if i >= |parts| - 4 {
        assert parts[i] == parts[|parts| - 4..][i - (|parts| - 4)];
      } else {
        assert parts[i] == parts[..2][i];
      }
    }
  }

  /** The invitation dialog's fields. */
  datatype Dialog = Dialog(
    modalVisible: bool,
    values: FormValues,
    csvHeaders: seq<string>,
    placeholders: seq<string>,
    invalidParameters: seq<string>,
    isValidParameter: bool,
    isMandatory: bool,
    sendLoading: bool)

  /** The log table's fields. */
  datatype Table = Table(logs: seq<Row>, logsLoading: bool, stats: Option<RsvpStats>)

  /** The dialog's derived fields agree with the form and the headers, as the effect leaves them. */
  predicate Validated(d: Dialog) {
    d.placeholders == Placeholders(TemplateText(d.values))
    && d.invalidParameters == Invalid(d.placeholders, d.csvHeaders)
    && d.isValidParameter == (d.invalidParameters == [])
    && d.isMandatory == InviteFormIncomplete(d.values)
  }

  /** `disabled={isMandatory || !isValidParameter || !sendLoading}` (src/pages/RSVPPage.tsx:384). */
  predicate SendDisabled(d: Dialog) {
    d.isMandatory || !d.isValidParameter || !d.sendLoading
  }

  /** The hint the dialog shows for its current fields. */
  function DialogTip(d: Dialog): Tip {
    TipFor(d.invalidParameters, d.placeholders, ValueOf(d.values, "csv"))
  }

  /** With the dialog validated, an enabled Send means a complete form whose placeholders are all headers and no send under way. */
  lemma SendEnabledMeansReady(d: Dialog)
    requires Validated(d) && !SendDisabled(d)
    ensures !IsEmptyValue(ValueOf(d.values, "csv")) && !IsEmptyValue(ValueOf(d.values, "template"))
            && !IsEmptyValue(ValueOf(d.values, "inviteType"))
    ensures forall x :: x in Placeholders(TemplateText(d.values)) ==> x in d.csvHeaders
    ensures d.sendLoading
  {
  }

  /** With the dialog validated, the red "invalid parameters" hint shows exactly when the parameters are flagged invalid. */
  lemma TipAgreesWithFlag(d: Dialog)
    requires Validated(d)
    ensures DialogTip(d).InvalidTip? <==> !d.isValidParameter
    ensures DialogTip(d).CorrectTip? ==> forall x :: x in d.placeholders ==> x in d.csvHeaders
  {
  }

  /**
   * The page. Its `useState` hooks are grouped by concern: the WhatsApp
   * connection, the invitation dialog and the log table are one record each.
   */
  class RsvpPage {
    /** The route's wedding id and whether a socket was opened (the socket address is configured). */
    const weddingId: Option<string>
    const hasSocket: bool

    /** `isWhatsappConnected`, `isWhatsappLoading`, `qrCodeUrl`, `currentLoggedNumber`. */
    var conn: Conn
    /** Everything emitted on the socket, oldest first. */
    var emitted: seq<Outbound>
    var dialog: Dialog
    /** `logsData`, `loading` and `stats`. */
    var table: Table

    constructor(weddingId: Option<string>, hasSocket: bool)
      ensures this.weddingId == weddingId && this.hasSocket == hasSocket
      ensures conn == Initial && emitted == []
      ensures dialog == Dialog(false, map[], [], [], [], true, false, true)
      ensures table == Table([], true, None)
    {
      this.weddingId := weddingId;
      this.hasSocket := hasSocket;
      conn := Conn(false, true, None, None);
      emitted := [];
      dialog := Dialog(false, map[], [], [], [], true, false, true);
      table := Table([], true, None);
    }

    /** A socket event runs its handler (src/pages/RSVPPage.tsx:95-153). */
    method OnEvent(e: Inbound)
      modifies this
      ensures conn == Step(old(conn), e)
      ensures emitted == old(emitted) + Emitted(e, weddingId)
      ensures dialog == old(dialog) && table == old(table)
    {
      match e
      case Connect =>
        emitted := emitted + [GetReadyStatus];
        emitted := emitted + [SetWeddingId(weddingId)];
      case ConnectError =>
      case Qr(p) =>
        conn := conn.(qr := Some(p), loading := false);
      case Ready(status, n) =>
        conn := conn.(connected := status, number := n, qr := None, loading := false);
      case Authenticated(status) =>
        conn := conn.(connected := status, qr := None, loading := false);
      case LoggedOut =>
        conn := conn.(connected := false, qr := None, loading := true);
      case Disconnected =>
        conn := conn.(connected := false, qr := None, loading := true);
      case Disconnect =>
        conn := conn.(connected := false, qr := None, loading := true);
      case AuthFailure =>
        conn := conn.(connected := false, qr := None, loading := true);
      case LoadingScreen(_) =>
    }

    /** "Having trouble?": ask the bridge to start over (src/pages/RSVPPage.tsx:272-278). */
    method HandleReinitialize()
      modifies this
      ensures conn == ReinitializeCommand(old(conn), hasSocket)
      ensures emitted == old(emitted) + CommandEmits(Reinitialize, hasSocket)
      ensures dialog == old(dialog) && table == old(table)
    {
      if hasSocket {
        emitted := emitted + [Reinitialize];
        conn := conn.(loading := true, qr := None);
      }
    }

    /** The Logout button (src/pages/RSVPPage.tsx:281-289). */
    method LogoutWhatsAppClient()
      modifies this
      ensures conn == LogoutCommand(old(conn), hasSocket)
      ensures emitted == old(emitted) + CommandEmits(LogoutBridge, hasSocket)
      ensures dialog == old(dialog) && table == old(table)
    {
      if hasSocket {
        emitted := emitted + [LogoutBridge];
        conn := conn.(loading := true, connected := false, qr := None);
      }
    }

    /** The form's effect, run on mount and whenever the headers change (src/components/RSVPInviteForm.tsx:73-84). */
    method Revalidate()
      modifies this
      ensures Validated(dialog)
      ensures dialog.values == old(dialog.values) && dialog.csvHeaders == old(dialog.csvHeaders)
      ensures dialog.modalVisible == old(dialog.modalVisible) && dialog.sendLoading == old(dialog.sendLoading)
      ensures conn == old(conn) && emitted == old(emitted) && table == old(table)
    {
      var ps := Placeholders(TemplateText(dialog.values));
      var invalid := Invalid(ps, dialog.csvHeaders);
      var incomplete := InviteFormIncomplete(dialog.values);
      dialog := dialog.(isValidParameter := |invalid| == 0, isMandatory := incomplete,
                        placeholders := ps, invalidParameters := invalid);
    }

    /** `onValuesChange`: re-validate only when the template is defined (src/components/RSVPInviteForm.tsx:88-97). */
    method HandleValuesChange(allValues: FormValues)
      modifies this
      ensures dialog.values == allValues && dialog.csvHeaders == old(dialog.csvHeaders)
      ensures ValueOf(allValues, "template") != Absent ==> Validated(dialog)
      ensures ValueOf(allValues, "template") == Absent ==>
                dialog == old(dialog).(values := allValues)
      ensures dialog.modalVisible == old(dialog.modalVisible) && dialog.sendLoading == old(dialog.sendLoading)
      ensures conn == old(conn) && emitted == old(emitted) && table == old(table)
    {
      dialog := dialog.(values := allValues);
      if ValueOf(allValues, "template") != Absent {
        Revalidate();
      }
    }

    /**
     * `beforeUpload`: the parser's header row becomes the header list, the effect
     * runs again, and the upload itself is refused (src/components/RSVPInviteForm.tsx:50-58).
     */
    method UploadCsv(fields: Option<seq<string>>) returns (autoUpload: bool)
      modifies this
      ensures !autoUpload
      ensures dialog.csvHeaders == NormalizeHeaders(fields) && dialog.values == old(dialog.values) && Validated(dialog)
      ensures dialog.modalVisible == old(dialog.modalVisible) && dialog.sendLoading == old(dialog.sendLoading)
      ensures conn == old(conn) && emitted == old(emitted) && table == old(table)
    {
      dialog := dialog.(csvHeaders := NormalizeHeaders(fields));
      Revalidate();
      autoUpload := false;
    }

    /** Removing the file empties the header list (src/components/RSVPInviteForm.tsx:111). */
    method RemoveCsv()
      modifies this
      ensures dialog.csvHeaders == [] && dialog.values == old(dialog.values) && Validated(dialog)
      ensures dialog.modalVisible == old(dialog.modalVisible) && dialog.sendLoading == old(dialog.sendLoading)
      ensures conn == old(conn) && emitted == old(emitted) && table == old(table)
    {
      dialog := dialog.(csvHeaders := []);
      Revalidate();
    }

    /** `showModal`: the dialog toggles. */
    method ToggleModal()
      modifies this
      ensures dialog == old(dialog).(modalVisible := !old(dialog.modalVisible))
      ensures conn == old(conn) && emitted == old(emitted) && table == old(table)
    {
      dialog := dialog.(modalVisible := !dialog.modalVisible);
    }

    /** The start of `handleSend`: Send is disabled while the request is on its way (src/pages/RSVPPage.tsx:294). */
    method BeginSend()
      modifies this
      ensures SendDisabled(dialog)
      ensures dialog == old(dialog).(sendLoading := false)
      ensures conn == old(conn) && emitted == old(emitted) && table == old(table)
    {
      dialog := dialog.(sendLoading := false);
    }

    /**
     * The end of `handleSend` (src/pages/RSVPPage.tsx:343-355). After an accepted
     * import the form is reset, the dialog closed and the headers emptied, which
     * runs the effect again, and the log is fetched anew (`response` is that
     * request's answer); after a failure the dialog is marked incomplete and the
     * table is left alone. Either way Send is enabled again as far as sending goes.
     */
    method FinishSend(failed: bool, response: Option<LogsResponse>, localize: string -> string)
      modifies this
      ensures dialog.sendLoading
      ensures !failed ==> dialog.values == map[] && !dialog.modalVisible && dialog.csvHeaders == [] && Validated(dialog)
      ensures !failed ==> !table.logsLoading
      ensures !failed && response.Some? ==>
                table.logs == TransformLogs(response.value.tableData, localize) && table.stats == response.value.stats
      ensures !failed && response.None? ==> table.logs == old(table.logs) && table.stats == old(table.stats)
      ensures failed ==> dialog == old(dialog).(isMandatory := true, sendLoading := true) && table == old(table)
      ensures conn == old(conn) && emitted == old(emitted)
    {
      if failed {
        dialog := dialog.(isMandatory := true);
      } else {
        dialog := dialog.(values := map[], modalVisible := false, csvHeaders := []);
        Revalidate();
        FetchLogs(response, localize);
      }
      dialog := dialog.(sendLoading := true);
    }

    /** `fetchLogs` once the request settles; `None` is a failed request (src/pages/RSVPPage.tsx:52-80). */
    method FetchLogs(response: Option<LogsResponse>, localize: string -> string)
      modifies this
      ensures !table.logsLoading
      ensures response.Some? ==> table.logs == TransformLogs(response.value.tableData, localize) && table.stats == response.value.stats
      ensures response.None? ==> table.logs == old(table.logs) && table.stats == old(table.stats)
      ensures conn == old(conn) && emitted == old(emitted) && dialog == old(dialog)
    {
      table := table.(logsLoading := true);
      if response.Some? {
        table := table.(logs := TransformLogs(response.value.tableData, localize), stats := response.value.stats);
      }
      table := table.(logsLoading := false);
    }
  }
}
