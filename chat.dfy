/**
 * The guest chat: the message list the chat window draws
 * (src/components/ChatWindow.tsx), the composer that sends a message
 * optimistically and settles its status afterwards
 * (src/components/MessageInput.tsx), and the page that owns the local
 * messages and the fetched log (src/pages/ChatPage.tsx).
 */
module Chat {
  import opened Wrappers
  import opened Types
  import opened JsText

  /** A message as the window draws it: the message and its `isNew` mark. */
  datatype DisplayMessage = DisplayMessage(msg: ChatMessage, isNew: Option<bool>)

  /** A message from the server's history: not new, and `sent` when the system wrote it. */
  function FromHistory(m: ChatMessage): (d: DisplayMessage)
    ensures d.isNew == Some(false)
    ensures d.msg.status == (if m.from == "system" then Some(Sent) else None)
    ensures d.msg.(status := m.status) == m
  {
    DisplayMessage(m.(status := if m.from == "system" then Some(Sent) else None), Some(false))
  }

  function MapHistory(h: seq<ChatMessage>): (r: seq<DisplayMessage>)
    ensures |r| == |h|
    ensures forall i :: 0 <= i < |h| ==> r[i] == FromHistory(h[i])
  {
    if h == [] then [] else [FromHistory(h[0])] + MapHistory(h[1..])
  }

  /** `allMessages`: the history (none when absent), then the local messages, each part in its own order. */
  function AllMessages(history: Option<seq<ChatMessage>>, messages: seq<DisplayMessage>): (r: seq<DisplayMessage>)
    ensures |r| == |history.GetOr([])| + |messages|
    ensures forall i :: 0 <= i < |history.GetOr([])| ==> r[i] == FromHistory(history.GetOr([])[i])
    ensures r[|history.GetOr([])|..] == messages
  {
    MapHistory(history.GetOr([])) + messages
  }

  datatype Icon = CheckIcon | CrossIcon | ClockIcon

  /** `MessageStatus`: a check for sent, a cross for failed, a clock for anything else. */
  function StatusIcon(status: Option<MsgStatus>): (icon: Icon)
    ensures icon == CheckIcon <==> status == Some(Sent)
    ensures icon == CrossIcon <==> status == Some(Failed)
    ensures icon == ClockIcon <==> status == Some(Sending) || status.None?
  {
    match status
    case Some(Sent) => CheckIcon
    case Some(Failed) => CrossIcon
    case _ => ClockIcon
  }

  predicate IsSystem(d: DisplayMessage) {
    d.msg.from == "system"
  }

  /** The icon under a message: only system messages get one; a new one shows its own status, any other shows sent. */
  function ShownIcon(d: DisplayMessage): (icon: Option<Icon>)
    ensures icon.Some? <==> IsSystem(d)
    ensures icon.Some? && d.isNew != Some(true) ==> icon.value == CheckIcon
    ensures icon.Some? && d.isNew == Some(true) ==> icon.value == StatusIcon(d.msg.status)
  {
    if IsSystem(d) then Some(StatusIcon(if d.isNew == Some(true) then d.msg.status else Some(Sent))) else None
  }

  datatype Side = Left | Right

  /** System messages sit on the right, the guest's on the left. */
  function Alignment(d: DisplayMessage): (side: Side)
    ensures side == Right <==> IsSystem(d)
  {
    if IsSystem(d) then Right else Left
  }

  /** Every history message the system wrote shows a check; the guest's show none. */
  lemma HistoryIcons(history: seq<ChatMessage>, messages: seq<DisplayMessage>, i: int)
    requires 0 <= i < |history|
    ensures var d := AllMessages(Some(history), messages)[i];
            ShownIcon(d) == (if history[i].from == "system" then Some(CheckIcon) else None)
  {
  }

  /** `sendMsg` either throws or answers with a `success` flag. */
  datatype SendOutcome = SendThrew | Answered(success: bool)

  /** The status a sent message settles on: sent iff the answer's `success` is truthy. */
  function Settled(outcome: SendOutcome): (s: MsgStatus)
    ensures s == Sent <==> outcome.Answered? && outcome.success
    ensures s != Sending
  {
    if outcome.Answered? && outcome.success then Sent else Failed
  }

  /** The number a message goes to: the log's number, or `""` without a log. */
  function Recipient(log: Option<LogData>): (number: string)
    ensures log.Some? ==> number == log.value.number
    ensures log.None? ==> number == ""
  {
    if log.Some? && log.value.number != "" then log.value.number else ""
  }

  /** Enter sends; Shift+Enter inserts a line break. */
  predicate SendsOnKey(key: string, shift: bool) {
    key == "Enter" && !shift
  }

  /** A message the composer created; the page's list holds references to these, so settling one changes the list's entry. */
  class Message {
    const id: string
    const from: string
    const text: string
    const timestamp: string
    var status: Option<MsgStatus>
    const isNew: bool

    constructor(id: string, from: string, text: string, timestamp: string, status: Option<MsgStatus>, isNew: bool)
      ensures this.id == id && this.from == from && this.text == text && this.timestamp == timestamp
      ensures this.status == status && this.isNew == isNew
    {
      this.id, this.from, this.text, this.timestamp := id, from, text, timestamp;
      this.status, this.isNew := status, isNew;
    }

    function Display(): DisplayMessage
      reads this
    {
      DisplayMessage(ChatMessage(id, from, text, timestamp, status), Some(isNew))
    }
  }

  function Displays(ms: seq<Message>): (r: seq<DisplayMessage>)
    reads set m | m in ms
    ensures |r| == |ms|
    ensures forall i :: 0 <= i < |ms| ==> r[i] == ms[i].Display()
  {
    if ms == [] then [] else [ms[0].Display()] + Displays(ms[1..])
  }

  datatype FetchOutcome = FetchThrew | Fetched(data: Option<LogData>)

  class ChatPage {
    /** The route's `id` parameter. */
    const id: Option<string>
    var messages: seq<Message>
    var logData: LogData
    /** Ids passed to `getLogById`, oldest first. */
    var fetches: seq<string>

    /** No local messages and the placeholder log (src/pages/ChatPage.tsx:18-19). */
    constructor(id: Option<string>)
      ensures this.id == id && messages == [] && logData == InitialLogData && fetches == []
    {
      this.id := id;
      messages, logData, fetches := [], InitialLogData, [];
    }

    /** What the chat window receives: the log's history, then the local messages. */
    function Window(): (r: seq<DisplayMessage>)
      reads this, set m | m in messages
      ensures |r| == |logData.chatHistory| + |messages|
      ensures r[|logData.chatHistory|..] == Displays(messages)
    {
      AllMessages(Some(logData.chatHistory), Displays(messages))
    }

    /** The window's last entry is the newest local message. */
    lemma WindowEndsWithLast()
      requires |messages| > 0
      ensures Window()[|Window()| - 1] == messages[|messages| - 1].Display()
    {
      var w := Window();
      assert w[|w| - 1] == w[|logData.chatHistory|..][|messages| - 1];
    }

    /** `handleSendMessage`: the message goes at the end of the local list. */
    method HandleSendMessage(m: Message)
      modifies this
      ensures messages == old(messages) + [m]
      ensures logData == old(logData) && fetches == old(fetches)
    {
      messages := messages + [m];
    }

    /** `fetchMessages`: no request without an id; an answer replaces the log, an empty one with the placeholder; a failure keeps it. */
    method FetchMessages(outcome: FetchOutcome)
      modifies this
      ensures id.None? || id.value == "" ==> fetches == old(fetches) && logData == old(logData)
      ensures id.Some? && id.value != "" ==> fetches == old(fetches) + [id.value]
      ensures id.Some? && id.value != "" && outcome.Fetched? ==> logData == outcome.data.GetOr(InitialLogData)
      ensures outcome.FetchThrew? ==> logData == old(logData)
      ensures messages == old(messages)
    {
      if id.None? || id.value == "" {
        return;
      }
      fetches := fetches + [id.value];
      match outcome
      case Fetched(data) => logData := data.GetOr(InitialLogData);
      case FetchThrew =>
    }
  }

  class MessageInput {
    var input: string
    /** `(number, text)` for each `sendMsg` call, oldest first. */
    var requests: seq<(string, string)>

    constructor()
      ensures input == "" && requests == []
    {
      input, requests := "", [];
    }

    /** The textarea's `onChange`. */
    method Edit(value: string)
      modifies this
      ensures input == value && requests == old(requests)
    {
      input := value;
    }

    /**
     * The synchronous half of `handleSend`: a blank input does nothing;
     * otherwise a new system message with the raw input and status `sending`
     * goes to the page, the input is cleared and the request is made.
     */
    method BeginSend(page: ChatPage, newId: string, now: string) returns (sent: Option<Message>)
      modifies this, page
      ensures Trim(old(input)) == "" ==>
                sent.None? && input == old(input) && requests == old(requests) && page.messages == old(page.messages)
      ensures Trim(old(input)) != "" ==>
                sent.Some? && fresh(sent.value) && page.messages == old(page.messages) + [sent.value]
                && sent.value.id == newId && sent.value.timestamp == now
                && sent.value.from == "system" && sent.value.text == old(input)
                && sent.value.status == Some(Sending) && sent.value.isNew
                && input == "" && requests == old(requests) + [(Recipient(Some(page.logData)), old(input))]
      ensures page.logData == old(page.logData) && page.fetches == old(page.fetches)
    {
      if Trim(input) == "" {
        return None;
      }
      var m := new Message(newId, "system", input, now, Some(Sending), true);
      page.HandleSendMessage(m);
      requests := requests + [(Recipient(Some(page.logData)), input)];
      input := "";
      sent := Some(m);
    }

    /** The asynchronous half: the message's status is overwritten in place once `sendMsg` settles. */
    static method Settle(m: Message, outcome: SendOutcome)
      modifies m
      ensures m.status == Some(Settled(outcome))
    {
      if outcome.Answered? && outcome.success {
        m.status := Some(Sent);
      } else {
        m.status := Some(Failed);
      }
    }

    /** `handleSend` from start to finish: its message ends last on the page, with the settled status (the window shows it last, by `WindowEndsWithLast`). */
    method HandleSend(page: ChatPage, newId: string, now: string, outcome: SendOutcome)
      modifies this, page
      ensures Trim(old(input)) == "" ==> input == old(input) && requests == old(requests) && page.messages == old(page.messages)
      ensures Trim(old(input)) != "" ==>
                |page.messages| == |old(page.messages)| + 1 && page.messages[..|old(page.messages)|] == old(page.messages)
                && input == "" && requests == old(requests) + [(Recipient(Some(old(page.logData))), old(input))]
      ensures Trim(old(input)) != "" ==>
                var m := page.messages[|page.messages| - 1];
                m.id == newId && m.from == "system" && m.text == old(input) && m.timestamp == now
                && m.isNew && m.status == Some(Settled(outcome))
      ensures page.logData == old(page.logData) && page.fetches == old(page.fetches)
    {
      ghost var prev := page.messages;
      var sent := BeginSend(page, newId, now);
      if sent.Some? {
        var m := sent.value;
        assert page.messages == prev + [m];
        Settle(m, outcome);
        assert page.messages == prev + [m];
        assert page.messages[..|prev|] == prev;
      }
    }

    /** `onKeyDown`: Enter without Shift sends, any other key leaves everything as it was. */
    method KeyDown(key: string, shift: bool, page: ChatPage, newId: string, now: string, outcome: SendOutcome)
      modifies this, page
      ensures !SendsOnKey(key, shift) ==> input == old(input) && requests == old(requests) && page.messages == old(page.messages)
      ensures SendsOnKey(key, shift) && Trim(old(input)) == "" ==>
                input == old(input) && requests == old(requests) && page.messages == old(page.messages)
      ensures SendsOnKey(key, shift) && Trim(old(input)) != "" ==>
                |page.messages| == |old(page.messages)| + 1 && page.messages[..|old(page.messages)|] == old(page.messages)
                && input == "" && requests == old(requests) + [(Recipient(Some(old(page.logData))), old(input))]
      ensures SendsOnKey(key, shift) && Trim(old(input)) != "" ==>
                var m := page.messages[|page.messages| - 1];
                m.id == newId && m.from == "system" && m.text == old(input) && m.timestamp == now
                && m.isNew && m.status == Some(Settled(outcome))
      ensures page.logData == old(page.logData) && page.fetches == old(page.fetches)
    {
      if SendsOnKey(key, shift) {
        HandleSend(page, newId, now, outcome);
      }
    }
  }
}
