/** The client side of the backend session: a socket, the connected flag,
    the chat log, the last emotion vector, a bounded reconnect counter, and
    the guarded senders. The transport is outside the model: its events are
    method calls, and what the client emits is recorded in order. */
module WebSocket {
  import opened Common
  import opened Emotions

  datatype Sender = User | AI

  datatype ChatMessage = ChatMessage(id: string, content: string, sender: Sender, timestamp: int)

  /** What the client emits on the socket. */
  datatype Outbound =
    | UserMessage(content: string, timestamp: int)
    | AudioData(audio: Option<string>, timestamp: int)

  /** A socket client; `connected` is its own transport-level flag. */
  datatype Socket = Socket(serial: nat, connected: bool)

  const MaxReconnectAttempts: nat := 5
  const BackoffStep: nat := 2000

  /** The delays of the retries scheduled by n consecutive connection
      failures after a reset: 2000 ms, 4000 ms, ... up to five of them. */
  function RetryDelays(n: nat): (ds: seq<nat>)
    ensures |ds| == if n <= MaxReconnectAttempts then n else MaxReconnectAttempts
    ensures forall k :: 0 <= k < |ds| ==> ds[k] == BackoffStep * (k + 1)
    decreases n
  {
    if n == 0 then []
    else if n > MaxReconnectAttempts then RetryDelays(MaxReconnectAttempts)
    else RetryDelays(n - 1) + [BackoffStep * n]
  }

  // ---------------------------------------------------------------------
  // Audio payload: `dataUrl.split(',')[1]`.

  /** Index of the first comma, or |s| when there is none. */
  function CommaIndex(s: string): (i: nat)
    ensures i <= |s|
    ensures i < |s| ==> s[i] == ','
    ensures ',' !in s[..i]
  {
    if s == [] then 0
    else if s[0] == ',' then 0
    else 1 + CommaIndex(s[1..])
  }

  /** The second comma-separated field of a data URL, or nothing when the
      URL has no comma. */
  function AudioPayload(dataUrl: string): (p: Option<string>)
    ensures p.Some? <==> ',' in dataUrl
    ensures p.Some? ==> ',' !in p.value
  {
    var i := CommaIndex(dataUrl);
    if i == |dataUrl| then None
    else
      var rest := dataUrl[i + 1..];
      Some(rest[..CommaIndex(rest)])
  }

  lemma {:induction false} CommaIndexOfPrefixed(a: string, b: string)
    requires ',' !in a
    ensures CommaIndex(a + [','] + b) == |a|
    decreases |a|
  {
    if a != [] {
      assert (a + [','] + b)[1..] == a[1..] + [','] + b;
      CommaIndexOfPrefixed(a[1..], b);
    }
  }

  lemma {:induction false} CommaIndexNone(a: string)
    requires ',' !in a
    ensures CommaIndex(a) == |a|
    decreases |a|
  {
    if a != [] {
      CommaIndexNone(a[1..]);
    }
  }

  /** Round trip: for a header and a payload without commas, the payload is
      what is sent, and any further comma-separated fields are dropped. */
  lemma AudioPayloadRoundTrip(header: string, payload: string, tail: string)
    requires ',' !in header && ',' !in payload
    ensures AudioPayload(header + [','] + payload) == Some(payload)
    ensures AudioPayload(header + [','] + payload + [','] + tail) == Some(payload)
  {
    var u := header + [','] + payload;
    CommaIndexOfPrefixed(header, payload);
    assert u[|header| + 1..] == payload;
    CommaIndexNone(payload);
    assert payload[..|payload|] == payload;
    assert AudioPayload(u) == Some(payload);
    var v := header + [','] + payload + [','] + tail;
    assert v == header + [','] + (payload + [','] + tail);
    CommaIndexOfPrefixed(header, payload + [','] + tail);
    assert v[|header| + 1..] == payload + [','] + tail;
    CommaIndexOfPrefixed(payload, tail);
    assert (payload + [','] + tail)[..|payload|] == payload;
  }

  // ---------------------------------------------------------------------
  // The session.

  class SocketSession {
    var socket: Option<Socket>
    var isConnected: bool
    var emotionData: Option<EmotionData>
    var chatMessages: seq<ChatMessage>
    var reconnectAttempts: nat
    var socketsOpened: nat
    var emitted: seq<Outbound>      // events emitted on the socket, in order
    var scheduledRetries: seq<nat>  // delays handed to the retry timer, in order
    var pendingReads: nat           // audio blobs being read, each to be emitted when loaded

    /** The connected flag mirrors the current socket, the counter is
        bounded, and the retries since the last reset are 2000, 4000, ... ms. */
    ghost predicate Valid()
      reads this
    {
      && (isConnected <==> socket.Some? && socket.value.connected)
      && reconnectAttempts <= MaxReconnectAttempts
      && reconnectAttempts <= |scheduledRetries|
      && scheduledRetries[|scheduledRetries| - reconnectAttempts..] == RetryDelays(reconnectAttempts)
    }

    constructor ()
      ensures Valid()
      ensures socketsOpened == 0 && pendingReads == 0
      ensures socket == None && !isConnected && emotionData == None && chatMessages == []
      ensures reconnectAttempts == 0 && emitted == [] && scheduledRetries == []
    {
      socket := None;
      isConnected := false;
      emotionData := None;
      chatMessages := [];
      reconnectAttempts := 0;
      socketsOpened := 0;
      pendingReads := 0;
      emitted := [];
      scheduledRetries := [];
    }

    /** connect: a no-op on a connected socket, otherwise a fresh socket that
        has not connected yet. */
    method Connect()
      requires Valid()
      modifies this
      ensures Valid()
      ensures old(isConnected) ==> unchanged(this)
      ensures pendingReads == old(pendingReads)
      ensures !old(isConnected) ==>
        && socket == Some(Socket(old(socketsOpened), false)) && !isConnected
        && socketsOpened == old(socketsOpened) + 1
        && emotionData == old(emotionData) && chatMessages == old(chatMessages)
        && reconnectAttempts == old(reconnectAttempts)
        && emitted == old(emitted) && scheduledRetries == old(scheduledRetries)
    {
      if socket.Some? && socket.value.connected {
        return;
      }
      socket := Some(Socket(socketsOpened, false));
      socketsOpened := socketsOpened + 1;
    }

    /** The socket's `connect` event. */
    method OnConnect()
      requires Valid() && socket.Some?
      modifies this
      ensures Valid()
      ensures socketsOpened == old(socketsOpened) && pendingReads == old(pendingReads)
      ensures isConnected && reconnectAttempts == 0
      ensures socket == Some(old(socket).value.(connected := true))
      ensures chatMessages == old(chatMessages) && emotionData == old(emotionData)
      ensures emitted == old(emitted) && scheduledRetries == old(scheduledRetries)
    {
      socket := Some(socket.value.(connected := true));
      isConnected := true;
      reconnectAttempts := 0;
    }

    /** The socket's `disconnect` event: the chat history is kept. */
    method OnTransportDisconnect()
      requires Valid() && socket.Some?
      modifies this
      ensures Valid()
      ensures socketsOpened == old(socketsOpened) && pendingReads == old(pendingReads)
      ensures !isConnected && socket == Some(old(socket).value.(connected := false))
      ensures chatMessages == old(chatMessages) && emotionData == old(emotionData)
      ensures reconnectAttempts == old(reconnectAttempts)
      ensures emitted == old(emitted) && scheduledRetries == old(scheduledRetries)
    {
      socket := Some(socket.value.(connected := false));
      isConnected := false;
    }

    /** The socket's `connect_error` event: schedule another connect after
        2000 ms times the attempt number, at most five times in a row. */
    method OnConnectError() returns (retryAfter: Option<nat>)
      requires Valid()
      modifies this
      ensures Valid()
      ensures socketsOpened == old(socketsOpened) && pendingReads == old(pendingReads)
      ensures old(reconnectAttempts) < MaxReconnectAttempts ==>
        && reconnectAttempts == old(reconnectAttempts) + 1
        && retryAfter == Some(BackoffStep * reconnectAttempts)
        && scheduledRetries == old(scheduledRetries) + [retryAfter.value]
      ensures old(reconnectAttempts) >= MaxReconnectAttempts ==>
        reconnectAttempts == old(reconnectAttempts) && retryAfter == None
        && scheduledRetries == old(scheduledRetries)
      ensures socket == old(socket) && isConnected == old(isConnected)
      ensures chatMessages == old(chatMessages) && emotionData == old(emotionData) && emitted == old(emitted)
    {
      retryAfter := None;
      if reconnectAttempts < MaxReconnectAttempts {
        reconnectAttempts := reconnectAttempts + 1;
        retryAfter := Some(BackoffStep * reconnectAttempts);
        scheduledRetries := scheduledRetries + [retryAfter.value];
        assert scheduledRetries[|scheduledRetries| - reconnectAttempts..]
            == old(scheduledRetries)[|old(scheduledRetries)| - old(reconnectAttempts)..] + [retryAfter.value];
      }
    }

    /** `emotion_update`: the vector is replaced wholesale. */
    method OnEmotionUpdate(data: EmotionData)
      requires Valid()
      modifies this
      ensures Valid()
      ensures socketsOpened == old(socketsOpened) && pendingReads == old(pendingReads)
      ensures emotionData == Some(data)
      ensures socket == old(socket) && isConnected == old(isConnected) && chatMessages == old(chatMessages)
      ensures reconnectAttempts == old(reconnectAttempts) && emitted == old(emitted)
      ensures scheduledRetries == old(scheduledRetries)
    {
      emotionData := Some(data);
    }

    /** `chat_message`: appended at the end, the earlier log untouched. */
    method OnChatMessage(message: ChatMessage)
      requires Valid()
      modifies this
      ensures Valid()
      ensures socketsOpened == old(socketsOpened) && pendingReads == old(pendingReads)
      ensures chatMessages == old(chatMessages) + [message]
      ensures socket == old(socket) && isConnected == old(isConnected) && emotionData == old(emotionData)
      ensures reconnectAttempts == old(reconnectAttempts) && emitted == old(emitted)
      ensures scheduledRetries == old(scheduledRetries)
    {
      chatMessages := chatMessages + [message];
    }

    /** `ai_response` received: one AI message is appended. The handler reads
        the clock twice, at `idTime` for the id and at `stampTime` for the
        timestamp. */
    method OnAIResponse(content: string, idTime: nat, stampTime: nat)
      requires Valid()
      modifies this
      ensures Valid()
      ensures socketsOpened == old(socketsOpened) && pendingReads == old(pendingReads)
      ensures chatMessages == old(chatMessages) + [ChatMessage("ai_" + NatToString(idTime), content, AI, stampTime)]
      ensures socket == old(socket) && isConnected == old(isConnected) && emotionData == old(emotionData)
      ensures reconnectAttempts == old(reconnectAttempts) && emitted == old(emitted)
      ensures scheduledRetries == old(scheduledRetries)
    {
      chatMessages := chatMessages + [ChatMessage("ai_" + NatToString(idTime), content, AI, stampTime)];
    }

    /** disconnect: with a socket, everything the session showed is cleared;
        without one, nothing happens. */
    method Disconnect()
      requires Valid()
      modifies this
      ensures Valid()
      ensures socketsOpened == old(socketsOpened) && pendingReads == old(pendingReads)
      ensures old(socket).None? ==> unchanged(this)
      ensures old(socket).Some? ==>
        socket == None && !isConnected && chatMessages == [] && emotionData == None
      ensures reconnectAttempts == old(reconnectAttempts) && emitted == old(emitted)
      ensures scheduledRetries == old(scheduledRetries)
    {
      if socket.Some? {
        socket := None;
        isConnected := false;
        chatMessages := [];
        emotionData := None;
      }
    }

    /** sendMessage: while connected, one user message is appended and one
        event emitted; otherwise nothing happens. The clock is read three
        times: for the id, for the chat timestamp and for the emitted one. */
    method SendMessage(message: string, idTime: nat, stampTime: nat, emitTime: nat)
      requires Valid()
      modifies this
      ensures Valid()
      ensures socketsOpened == old(socketsOpened) && pendingReads == old(pendingReads)
      ensures !old(socket.Some? && isConnected) ==> unchanged(this)
      ensures old(socket.Some? && isConnected) ==>
        && chatMessages == old(chatMessages) + [ChatMessage("user_" + NatToString(idTime), message, User, stampTime)]
        && emitted == old(emitted) + [UserMessage(message, emitTime)]
      ensures socket == old(socket) && isConnected == old(isConnected) && emotionData == old(emotionData)
      ensures reconnectAttempts == old(reconnectAttempts) && scheduledRetries == old(scheduledRetries)
    {
      if socket.Some? && isConnected {
        chatMessages := chatMessages + [ChatMessage("user_" + NatToString(idTime), message, User, stampTime)];
        emitted := emitted + [UserMessage(message, emitTime)];
      }
    }

    /** sendAudioData: the connection is checked when it is called; while
        connected, a read of the blob starts, and nothing else happens. */
    method SendAudioData()
      requires Valid()
      modifies this
      ensures Valid()
      ensures !old(socket.Some? && isConnected) ==> unchanged(this)
      ensures old(socket.Some? && isConnected) ==> pendingReads == old(pendingReads) + 1
      ensures socketsOpened == old(socketsOpened) && emitted == old(emitted) && chatMessages == old(chatMessages)
      ensures socket == old(socket) && isConnected == old(isConnected) && emotionData == old(emotionData)
      ensures reconnectAttempts == old(reconnectAttempts) && scheduledRetries == old(scheduledRetries)
    {
      if socket.Some? && isConnected {
        pendingReads := pendingReads + 1;
      }
    }

    /** A started read has produced `dataUrl` at time `now`: the payload
        after the header is emitted on the socket captured at the call,
        without checking the connection again. */
    method OnAudioRead(dataUrl: string, now: nat)
      requires Valid() && pendingReads > 0
      modifies this
      ensures Valid()
      ensures pendingReads == old(pendingReads) - 1
      ensures emitted == old(emitted) + [AudioData(AudioPayload(dataUrl), now)]
      ensures socketsOpened == old(socketsOpened) && chatMessages == old(chatMessages)
      ensures socket == old(socket) && isConnected == old(isConnected) && emotionData == old(emotionData)
      ensures reconnectAttempts == old(reconnectAttempts) && scheduledRetries == old(scheduledRetries)
    {
      pendingReads := pendingReads - 1;
      emitted := emitted + [AudioData(AudioPayload(dataUrl), now)];
    }
  }
}
