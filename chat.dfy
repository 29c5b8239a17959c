/** The message-sync logic of class ChatApp in frontend/static/js/friends.js.
    Each server reply is an input: a HistoryResponse for a chat-history fetch, a
    SendResponse for a send, a timer id for `setInterval`, a clock reading for
    `new Date()`. The `#chat-messages` container is the sequence of bubbles it
    shows, in order. */
module ChatSync {
  import opened Wrappers
  import opened Text

  /** One entry of a chat-history reply, or the message object built on send. */
  datatype Message = Message(sender: string, content: string, timestamp: int)

  /** One rendered message bubble: its `me`/`peer` class, its text and the
      instant, in milliseconds, its HH:MM time label is formatted from. The
      sender itself is not shown. */
  datatype Bubble = Bubble(own: bool, content: string, time: int)

  /** How a fetch of /api/chat-history ended: a reply with `ok` true and its
      history, a reply with `ok` false, or a rejected `fetch`/`json()`. */
  datatype HistoryResponse = HistoryOk(history: seq<Message>) | HistoryNotOk | HistoryThrew

  /** How a POST to /api/send-message ended. `msg` is the reply's optional `msg`. */
  datatype SendResponse = SendOk | SendNotOk(msg: Option<string>) | SendThrew

  /** What sendMessage did: nothing (blank input), rendered the message, showed
      an alert, or let the rejected promise escape. */
  datatype SendOutcome = NothingToSend | Sent | Alerted(text: string) | Unhandled

  /** The alert text used when a failed send carries no message. */
  const SendFailedText: string := "发送消息失败"

  /** The rendered part of the state: the bubbles and `lastMessageCount`. */
  datatype SyncState = SyncState(bubbles: seq<Bubble>, lastCount: nat)

  /** The high-water mark never exceeds what is on screen. */
  predicate Consistent(s: SyncState) {
    s.lastCount <= |s.bubbles|
  }

  /** `msg.sender === this.me`; a missing `chat-user` (`null`) matches no sender. */
  predicate IsOwn(sender: string, me: Option<string>) {
    me == Some(sender)
  }

  /** The bubble addMessageToUI builds for a message. */
  function ToBubble(m: Message, own: bool): (b: Bubble) {
    Bubble(own, m.content, m.timestamp)
  }

  /** The container after clearing it and rendering `history` in order. */
  function Render(history: seq<Message>, me: Option<string>): (r: seq<Bubble>)
    ensures |r| == |history|
    ensures forall i :: 0 <= i < |history| ==>
      r[i] == Bubble(IsOwn(history[i].sender, me), history[i].content, history[i].timestamp)
  {
    if history == [] then []
    else
      var last := history[|history| - 1];
      Render(history[..|history| - 1], me) + [ToBubble(last, IsOwn(last.sender, me))]
  }

  /** `result.msg || '发送消息失败'`: an absent or empty message falls back. */
  function AlertText(msg: Option<string>): (t: string)
    ensures t != ""
    ensures msg.Some? && msg.value != "" ==> t == msg.value
    ensures !(msg.Some? && msg.value != "") ==> t == SendFailedText
  {
    if msg.Some? && msg.value != "" then msg.value else SendFailedText
  }

  /** loadChatHistory: an ok reply replaces the whole container and the count;
      anything else leaves both. */
  function AfterLoad(s: SyncState, resp: HistoryResponse, me: Option<string>): (t: SyncState)
    ensures Consistent(s) ==> Consistent(t)
    ensures resp.HistoryOk? ==> t.lastCount == |resp.history| == |t.bubbles|
    ensures !resp.HistoryOk? ==> t == s
  {
    match resp
    case HistoryOk(history) => SyncState(Render(history, me), |history|)
    case _ => s
  }

  /** checkForNewMessages: only an ok reply whose history is longer than the
      count changes anything, and then the whole container is rebuilt. */
  function AfterCheck(s: SyncState, resp: HistoryResponse, me: Option<string>): (t: SyncState)
    ensures t.lastCount >= s.lastCount
    ensures Consistent(s) ==> Consistent(t)
    ensures t != s ==> resp.HistoryOk? && |resp.history| > s.lastCount && t.lastCount == |resp.history|
  {
    if resp.HistoryOk? && |resp.history| > s.lastCount then
      SyncState(Render(resp.history, me), |resp.history|)
    else
      s
  }

  /** What sendMessage reports for the input text and the reply. */
  function SendResult(input: string, resp: SendResponse): (o: SendOutcome)
    ensures o.NothingToSend? <==> JsTrim(input) == ""
    ensures o.Sent? <==> JsTrim(input) != "" && resp.SendOk?
    ensures JsTrim(input) != "" && resp.SendNotOk? ==> o == Alerted(AlertText(resp.msg))
    ensures JsTrim(input) != "" && resp.SendThrew? ==> o == Unhandled
  {
    if JsTrim(input) == "" then NothingToSend
    else match resp
      case SendOk => Sent
      case SendNotOk(msg) => Alerted(AlertText(msg))
      case SendThrew => Unhandled
  }

  /** sendMessage: a successful send appends one own bubble with the trimmed
      text and the local clock reading; the count is not touched. */
  function AfterSend(s: SyncState, input: string, resp: SendResponse, now: int): (t: SyncState)
    ensures t.lastCount == s.lastCount
    ensures Consistent(s) ==> Consistent(t)
    ensures SendResult(input, resp).Sent? ==>
      t.bubbles == s.bubbles + [Bubble(true, JsTrim(input), now)]
    ensures !SendResult(input, resp).Sent? ==> t == s
  {
    var content := JsTrim(input);
    if content != "" && resp.SendOk? then
      SyncState(s.bubbles + [Bubble(true, content, now)], s.lastCount)
    else
      s
  }

  /** The chat page's controller. */
  class ChatApp {
    /** `localStorage.getItem('chat-user')`, read once. */
    const me: Option<string>
    /** The `#peername` text, read once. */
    const peer: string
    /** The `#chat-messages` container. */
    var bubbles: seq<Bubble>
    var lastMessageCount: nat
    /** The id of the polling interval, or `null`. */
    var pollingInterval: Option<nat>
    /** The ids of the intervals the browser is running for this page. */
    var activeIntervals: set<nat>
    /** The value of the `#message-input` box. */
    var inputValue: string

    ghost predicate Valid()
      reads this
    {
      && lastMessageCount <= |bubbles|
      && (pollingInterval.Some? ==> pollingInterval.value > 0 && pollingInterval.value in activeIntervals)
    }

    function State(): (s: SyncState)
      reads this
    {
      SyncState(bubbles, lastMessageCount)
    }

    /** The constructor and the synchronous part of init(): empty container, count 0,
        polling started with the id `setInterval` hands back. The history fetch
        that init() starts completes later, as a call of LoadChatHistory. */
    constructor (me: Option<string>, peer: string, intervalId: nat)
      requires intervalId > 0
      ensures Valid()
      ensures this.me == me && this.peer == peer
      ensures bubbles == [] && lastMessageCount == 0 && inputValue == ""
      ensures pollingInterval == Some(intervalId) && activeIntervals == {intervalId}
    {
      this.me := me;
      this.peer := peer;
      bubbles := [];
      lastMessageCount := 0;
      inputValue := "";
      pollingInterval := None;
      activeIntervals := {};
      new;
      StartPolling(intervalId);
    }

    /** addMessageToUI: append one bubble to the container. */
    method AddMessageToUI(message: Message, isOwnMessage: bool)
      modifies this`bubbles
      ensures old(Valid()) ==> Valid()
      ensures bubbles == old(bubbles) + [ToBubble(message, isOwnMessage)]
    {
      bubbles := bubbles + [ToBubble(message, isOwnMessage)];
    }

    /** `container.innerHTML = ''` followed by the `forEach` that renders every message. */
    method RenderAll(history: seq<Message>)
      modifies this`bubbles
      ensures bubbles == Render(history, me)
    {
      bubbles := [];
      for i := 0 to |history|
        invariant bubbles == Render(history[..i], me)
      {
        var msg := history[i];
        AddMessageToUI(msg, IsOwn(msg.sender, me));
        assert history[..i + 1][..i] == history[..i];
      }
      assert history[..|history|] == history;
    }

    /** sendMessage, with the reply of the POST and the clock reading for `new Date()`. */
    method SendMessage(resp: SendResponse, now: int) returns (outcome: SendOutcome)
      requires Valid()
      modifies this`bubbles, this`inputValue
      ensures Valid()
      ensures outcome == SendResult(old(inputValue), resp)
      ensures State() == AfterSend(old(State()), old(inputValue), resp, now)
      ensures inputValue == if outcome.Sent? then "" else old(inputValue)
    {
      var content := JsTrim(inputValue);
      if content == "" {
        return NothingToSend;
      }
      match resp {
        case SendOk =>
          // The sender is not rendered; a missing `chat-user` is written as "".
          var message := Message(if me.Some? then me.value else "", content, now);
          AddMessageToUI(message, true);
          inputValue := "";
          outcome := Sent;
        case SendNotOk(msg) =>
          outcome := Alerted(AlertText(msg));
        case SendThrew =>
          outcome := Unhandled;
      }
    }

    /** loadChatHistory, with the way its fetch ended. */
    method LoadChatHistory(resp: HistoryResponse)
      requires Valid()
      modifies this`bubbles, this`lastMessageCount
      ensures Valid()
      ensures State() == AfterLoad(old(State()), resp, me)
    {
      if resp.HistoryOk? {
        RenderAll(resp.history);
        lastMessageCount := |resp.history|;
      }
    }

    /** checkForNewMessages, with the way its fetch ended. */
    method CheckForNewMessages(resp: HistoryResponse)
      requires Valid()
      modifies this`bubbles, this`lastMessageCount
      ensures Valid()
      ensures State() == AfterCheck(old(State()), resp, me)
    {
      if resp.HistoryOk? {
        if |resp.history| > lastMessageCount {
          lastMessageCount := |resp.history|;
          RenderAll(resp.history);
        }
      }
    }

    /** startPolling, with the id `setInterval` returns (positive, and not the id
        of another running interval). A previous id is overwritten, its interval
        left running. */
    method StartPolling(intervalId: nat)
      requires Valid()
      requires intervalId > 0 && intervalId !in activeIntervals
      modifies this`pollingInterval, this`activeIntervals
      ensures Valid()
      ensures pollingInterval == Some(intervalId)
      ensures activeIntervals == old(activeIntervals) + {intervalId}
    {
      activeIntervals := activeIntervals + {intervalId};
      pollingInterval := Some(intervalId);
    }

    /** stopPolling: clear the interval, if there is one, and forget its id. */
    method StopPolling()
      requires Valid()
      modifies this`pollingInterval, this`activeIntervals
      ensures Valid()
      ensures pollingInterval == None
      ensures activeIntervals == match old(pollingInterval)
        case None => old(activeIntervals)
        case Some(id) => old(activeIntervals) - {id}
    {
      if pollingInterval.Some? && pollingInterval.value != 0 {
        activeIntervals := activeIntervals - {pollingInterval.value};
        pollingInterval := None;
      }
    }

    /** destroy: stop polling. */
    method Destroy()
      requires Valid()
      modifies this`pollingInterval, this`activeIntervals
      ensures Valid()
      ensures pollingInterval == None
      ensures activeIntervals == match old(pollingInterval)
        case None => old(activeIntervals)
        case Some(id) => old(activeIntervals) - {id}
    {
      StopPolling();
    }
  }
}
