/** Properties of the ChatApp message-sync state machine across several calls. */
module ChatProperties {
  import opened Wrappers
  import opened Text
  import opened ChatSync

  /** A loaded history renders every message in order, marked own exactly when
      its sender is the current user, and sets the count to its length. */
  lemma LoadRendersHistory(s: SyncState, history: seq<Message>, me: Option<string>, i: nat)
    requires i < |history|
    ensures var t := AfterLoad(s, HistoryOk(history), me);
      && t.lastCount == |t.bubbles| == |history|
      && t.bubbles[i].own == (me == Some(history[i].sender))
      && t.bubbles[i].content == history[i].content
      && t.bubbles[i].time == history[i].timestamp
  {
  }

  /** Polling twice with the same reply is the same as polling once. */
  lemma CheckIdempotent(s: SyncState, resp: HistoryResponse, me: Option<string>)
    ensures AfterCheck(AfterCheck(s, resp, me), resp, me) == AfterCheck(s, resp, me)
  {
  }

  /** `checkForNewMessages` over a run of replies, in order. */
  function PollAll(s: SyncState, resps: seq<HistoryResponse>, me: Option<string>): (t: SyncState)
    decreases |resps|
  {
    if resps == [] then s else PollAll(AfterCheck(s, resps[0], me), resps[1..], me)
  }

  function Max(a: nat, b: nat): (m: nat) { if a < b then b else a }

  /** The history length a reply reports, 0 for a failed fetch. */
  function OkLength(resp: HistoryResponse): (n: nat) {
    if resp.HistoryOk? then |resp.history| else 0
  }

  /** The longest history among a run of replies. */
  function MaxOkLength(resps: seq<HistoryResponse>): (n: nat)
    decreases |resps|
  {
    if resps == [] then 0 else Max(OkLength(resps[0]), MaxOkLength(resps[1..]))
  }

  /** After any run of polls the count is the larger of its start value and the
      longest history seen: it never decreases, and failures leave no trace. */
  lemma {:induction false} PollAllCount(s: SyncState, resps: seq<HistoryResponse>, me: Option<string>)
    ensures PollAll(s, resps, me).lastCount == Max(s.lastCount, MaxOkLength(resps))
    ensures PollAll(s, resps, me).lastCount >= s.lastCount
    decreases |resps|
  {
    if resps != [] {
      PollAllCount(AfterCheck(s, resps[0], me), resps[1..], me);
    }
  }

  /** A run of polls keeps the count within the number of bubbles shown. */
  lemma {:induction false} PollAllConsistent(s: SyncState, resps: seq<HistoryResponse>, me: Option<string>)
    requires Consistent(s)
    ensures Consistent(PollAll(s, resps, me))
    decreases |resps|
  {
    if resps != [] {
      PollAllConsistent(AfterCheck(s, resps[0], me), resps[1..], me);
    }
  }

  /** Rendering a longer history extends the rendering of its prefix. */
  lemma RenderPrefix(h0: seq<Message>, h1: seq<Message>, me: Option<string>)
    requires h0 <= h1
    ensures Render(h0, me) <= Render(h1, me)
  {
  }

  /** When the server only appends, a poll that detects new messages keeps what
      was shown as a prefix of what it shows now. */
  lemma AppendOnlyWhenHistoryGrows(h0: seq<Message>, h1: seq<Message>, me: Option<string>)
    requires h0 <= h1
    ensures var s := SyncState(Render(h0, me), |h0|);
      s.bubbles <= AfterCheck(s, HistoryOk(h1), me).bubbles
  {
  }

  /** A detected change rebuilds the whole list from the reply: whatever was on
      screen before, an optimistic bubble included, does not survive unless the
      history contains it. */
  lemma CheckRebuildsFromHistory(s: SyncState, history: seq<Message>, me: Option<string>)
    requires |history| > s.lastCount
    ensures AfterCheck(s, HistoryOk(history), me) == SyncState(Render(history, me), |history|)
  {
  }

  /** The count is a length, not a cursor: a history no longer than the count
      is ignored, whatever its contents, so the list shown stays stale whenever
      it differs from the rendering of that history (for instance after one
      message was deleted and another added). */
  lemma EditOfSameLengthGoesUnnoticed(s: SyncState, history: seq<Message>, me: Option<string>)
    requires |history| <= s.lastCount
    ensures AfterCheck(s, HistoryOk(history), me) == s
    ensures Render(history, me) != s.bubbles ==>
      AfterCheck(s, HistoryOk(history), me).bubbles != Render(history, me)
  {
  }

  /** An optimistic bubble breaks the append-only view even when the server only
      appends: the poll replaces the bubble's instant (the client clock) by the
      server's timestamp. Here the two instants, 0 and 60000 ms, lie a minute
      apart, so the bubble's HH:MM label changes on screen as well. */
  lemma OptimisticBubbleBreaksPrefix()
    ensures var me := Some("alice");
      var sent := AfterSend(AfterLoad(SyncState([], 0), HistoryOk([]), me), "hi", SendOk, 0);
      var polled := AfterCheck(sent, HistoryOk([Message("alice", "hi", 60000)]), me);
      && sent.bubbles == [Bubble(true, "hi", 0)]
      && polled.bubbles == [Bubble(true, "hi", 60000)]
      && !(sent.bubbles <= polled.bubbles)
  {
    assert JsTrim("hi") == "hi" by {
      TrimOfTrimmed("hi", JsWhitespace);
    }
  }

  /** Sending after a load and then polling the history that now ends in the
      sent message shows each message once: the optimistic bubble is replaced by
      the server's copy, which differs from it at most in its time. */
  lemma SendThenPollShowsEachMessageOnce(history: seq<Message>, me: string, input: string, now: int, serverTime: int)
    requires JsTrim(input) != ""
    ensures var loaded := AfterLoad(SyncState([], 0), HistoryOk(history), Some(me));
      var sent := AfterSend(loaded, input, SendOk, now);
      var newHistory := history + [Message(me, JsTrim(input), serverTime)];
      var polled := AfterCheck(sent, HistoryOk(newHistory), Some(me));
      && |sent.bubbles| == |history| + 1 && sent.lastCount == |history|
      && polled == SyncState(Render(newHistory, Some(me)), |history| + 1)
      && |polled.bubbles| == |sent.bubbles|
      && polled.bubbles[..|history|] == sent.bubbles[..|history|]
      && polled.bubbles[|history|] == sent.bubbles[|history|].(time := serverTime)
  {
  }

  /** Blank input (only whitespace once trimmed) sends nothing and changes nothing. */
  lemma BlankInputChangesNothing(s: SyncState, input: string, resp: SendResponse, now: int)
    requires AllIn(input, JsWhitespace)
    ensures SendResult(input, resp) == NothingToSend
    ensures AfterSend(s, input, resp, now) == s
  {
  }
}
