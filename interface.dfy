/**
 * The records the console passes around: guest-table rows and column
 * descriptions, chat messages, a guest's log, the RSVP statistics and the
 * signed-in user.
 */
module Types {
  import opened Wrappers

  /** One row of the guest table (`columnsrsvp`). */
  datatype Row = Row(
    id: string,
    srNo: int,
    name: string,
    phone: string,
    inviteType: string,
    status: string,
    responses: string,
    timestamp: string)

  /** The keys of a row (`keyof columnsrsvp`). */
  datatype Field = Id | SrNo | Name | Phone | InviteType | Status | Responses | Timestamp

  /** A field's raw value: every field is a string except the serial number. */
  datatype Cell = Str(s: string) | Num(n: int)

  /** `record[dataIndex]`. */
  function CellOf(r: Row, f: Field): Cell {
    match f
    case Id => Str(r.id)
    case SrNo => Num(r.srNo)
    case Name => Str(r.name)
    case Phone => Str(r.phone)
    case InviteType => Str(r.inviteType)
    case Status => Str(r.status)
    case Responses => Str(r.responses)
    case Timestamp => Str(r.timestamp)
  }

  /** The two comparators and two renderers that column descriptions carry. */
  datatype Sorter = NameSorter | TimestampSorter
  datatype Render = StatusTagRender | TimestampRender

  /** A column description (`CustomColumn`); an absent flag is `false`. */
  datatype CustomColumn = CustomColumn(
    title: string,
    dataIndex: Field,
    key: string,
    enableSearch: bool,
    enableSort: bool,
    render: Option<Render>,
    sorter: Option<Sorter>,
    width: Option<int>)

  /** Delivery status of a chat message. */
  datatype MsgStatus = Sending | Sent | Failed

  /** A chat message (`ChatMessageInterface`). */
  datatype ChatMessage = ChatMessage(
    id: string,
    from: string,
    message: string,
    timestamp: string,
    status: Option<MsgStatus>)

  /** One guest's log with its chat history (`LogDataInterface`). */
  datatype LogData = LogData(
    id: string,
    name: string,
    number: string,
    inviteType: string,
    couplesName: string,
    hostName: string,
    eventDate: string,
    events: seq<string>,
    response: string,
    attachment: string,
    chatHistory: seq<ChatMessage>)

  /** The placeholder log shown before the guest's log has been fetched (`initialLogData`). */
  const InitialLogData := LogData("", "", "", "", "", "", "", [], "yes", "", [])

  /** A count with its percentage, as the statistics endpoint reports them. */
  datatype Tally = Tally(kind: string, count: int, percentage: string)

  /** `RSVPStats`. */
  datatype RsvpStats = RsvpStats(
    inviteTypes: seq<Tally>,
    statuses: seq<Tally>,
    yes: Tally,
    no: Tally)

  /**
   * The signed-in user. An absent `email` or `username` is the empty string
   * (both are falsy in every test the console makes); `department` is absent
   * (`None`), `null` (`Some(None)`) or a string.
   */
  datatype User = User(
    email: string,
    username: string,
    role: Option<string>,
    department: Option<Option<string>>,
    isGoogleAuth: Option<bool>)
}
