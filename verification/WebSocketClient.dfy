/** Subscriptions over a reconnecting WebSocket (src/lib/websocketClient.ts).

    Browser events (a socket opens, fades, closes) and API calls come in any order; each
    handler runs to its end before the next one starts. Several sockets may be alive at
    once: `disconnect` and a new `connect` do not wait for the old one's close event. */
module WebSocketClients {

  import opened Basics

  type Channel = string
  type Handler = nat

  datatype Message = Subscribe(channel: Channel) | Unsubscribe(channel: Channel) | Ping

  datatype Phase = Connecting | Opened | Closing | Closed

  datatype Socket = Socket(phase: Phase, sent: seq<Message>)

  datatype Client = Client(
    ws: Option<nat>,
    sockets: map<nat, Socket>,
    isConnecting: bool,
    queue: seq<Message>,
    subscriptions: map<Channel, set<Handler>>,
    hung: bool)                                  // the flush loop is spinning forever

  const Start := Client(None, map[], false, [], map[], false)

  datatype Event =
    | Connect(id: nat)                           // connect(), by a caller or by the timer
    | OnOpen(id: nat, order: seq<Channel>)       // `order` enumerates the subscribed channels
    | OnError
    | Fade(id: nat)                              // readyState leaves OPEN before onclose runs
    | OnClose(id: nat)
    | Disconnect
    | DoSubscribe(channel: Channel, handler: Handler)
    | CallUnsubscribe(channel: Channel, handler: Handler)   // the closure, any number of times
    | PingTick

  // ---------- The server's view ----------

  function Effect(channels: set<Channel>, m: Message): set<Channel> {
    match m
    case Subscribe(c) => channels + {c}
    case Unsubscribe(c) => channels - {c}
    case Ping => channels
  }

  /** The channels a server is left with after these messages on one connection. */
  function Replay(messages: seq<Message>): set<Channel> {
    if messages == [] then {} else Effect(Replay(messages[..|messages| - 1]), messages[|messages| - 1])
  }

  // ---------- One event ----------

  predicate IsOpen(s: Client) {
    s.ws.Some? && s.ws.value in s.sockets && s.sockets[s.ws.value].phase.Opened?
  }

  function Send(s: Client, m: Message): Client {
    if IsOpen(s)
    then
      var socket := s.sockets[s.ws.value];
      s.(sockets := s.sockets[s.ws.value := socket.(sent := socket.sent + [m])])
    else s.(queue := s.queue + [m])
  }

  function SendAll(s: Client, ms: seq<Message>): Client {
    if ms == [] then s else Send(SendAll(s, ms[..|ms| - 1]), ms[|ms| - 1])
  }

  function Subscribes(order: seq<Channel>): seq<Message> {
    seq(|order|, i requires 0 <= i < |order| => Subscribe(order[i]))
  }

  predicate Enumerates(order: seq<Channel>, channels: set<Channel>) {
    (forall i | 0 <= i < |order| :: order[i] in channels) && (forall c | c in channels :: c in order)
  }

  function WithPhase(s: Client, id: nat, phase: Phase): Client
    requires id in s.sockets
  {
    s.(sockets := s.sockets[id := s.sockets[id].(phase := phase)])
  }

  function Apply(s: Client, e: Event): Client {
    if s.hung then s
    else
      match e
      case Connect(id) =>
        if IsOpen(s) || s.isConnecting || id in s.sockets then s
        else s.(isConnecting := true, ws := Some(id), sockets := s.sockets[id := Socket(Connecting, [])])
      case OnOpen(id, order) =>
        if id !in s.sockets || !s.sockets[id].phase.Connecting? || !Enumerates(order, s.subscriptions.Keys) then s
        else
          var s1 := WithPhase(s, id, Opened).(isConnecting := false);
          if s1.queue != [] && !IsOpen(s1) then s1.(hung := true)
          else SendAll(SendAll(s1.(queue := []), s1.queue), Subscribes(order))
      case OnError => s.(isConnecting := false)
      case Fade(id) =>
        if id in s.sockets && s.sockets[id].phase.Opened? then WithPhase(s, id, Closing) else s
      case OnClose(id) =>
        if id in s.sockets && !s.sockets[id].phase.Closed?
        then WithPhase(s, id, Closed).(isConnecting := false) else s
      case Disconnect =>
        if s.ws.None? then s
        else if s.ws.value in s.sockets && !s.sockets[s.ws.value].phase.Closed?
        then WithPhase(s, s.ws.value, Closing).(ws := None)
        else s.(ws := None)
      case DoSubscribe(c, h) =>
        if c in s.subscriptions then s.(subscriptions := s.subscriptions[c := s.subscriptions[c] + {h}])
        else Send(s, Subscribe(c)).(subscriptions := s.subscriptions[c := {h}])
      case CallUnsubscribe(c, h) =>
        if c !in s.subscriptions then s
        else if s.subscriptions[c] - {h} == {}
        then Send(s, Unsubscribe(c)).(subscriptions := s.subscriptions - {c})
        else s.(subscriptions := s.subscriptions[c := s.subscriptions[c] - {h}])
      case PingTick => Send(s, Ping)
  }

  function Run(s: Client, es: seq<Event>): Client
    decreases es
  {
    if es == [] then s else Run(Apply(s, es[0]), es[1..])
  }

  // ---------- Server and client agree ----------

  /** The channels with a live handler. */
  function Live(s: Client): set<Channel> {
    set c | c in s.subscriptions && s.subscriptions[c] != {}
  }

  /** An open connection has told the server exactly the subscribed channels; while there
      is none, the queue alone would subscribe to nothing else. */
  ghost predicate Inv(s: Client) {
    && (forall c | c in s.subscriptions :: s.subscriptions[c] != {})
    && (forall id | id in s.sockets && s.sockets[id].phase.Connecting? :: s.sockets[id].sent == [])
    && (!s.hung ==>
          if IsOpen(s)
          then s.queue == [] && Replay(s.sockets[s.ws.value].sent) == s.subscriptions.Keys
          else Replay(s.queue) <= s.subscriptions.Keys)
  }

  lemma ReplaySnoc(ms: seq<Message>, m: Message)
    ensures Replay(ms + [m]) == Effect(Replay(ms), m)
  {
    assert (ms + [m])[..|ms|] == ms;
  }

  lemma {:induction false} ReplaySubscribes(ms: seq<Message>, order: seq<Channel>, k: nat)
    requires k <= |order|
    ensures Replay(ms + Subscribes(order)[..k]) == Replay(ms) + set i | 0 <= i < k :: order[i]
  {
    if k == 0 {
      assert ms + Subscribes(order)[..0] == ms;
    } else {
      ReplaySubscribes(ms, order, k - 1);
      assert ms + Subscribes(order)[..k] == (ms + Subscribes(order)[..k - 1]) + [Subscribe(order[k - 1])];
      ReplaySnoc(ms + Subscribes(order)[..k - 1], Subscribe(order[k - 1]));
    }
  }

  /** Sending a batch appends it to the open connection, or to the queue. */
  function Extended(s: Client, ms: seq<Message>): Client {
    if IsOpen(s)
    then s.(sockets := s.sockets[s.ws.value := Socket(Opened, s.sockets[s.ws.value].sent + ms)])
    else s.(queue := s.queue + ms)
  }

  lemma ExtendedSnoc(s: Client, ms: seq<Message>, m: Message)
    ensures Send(Extended(s, ms), m) == Extended(s, ms + [m])
  {
    if IsOpen(s) {
      assert s.sockets[s.ws.value].sent + ms + [m] == s.sockets[s.ws.value].sent + (ms + [m]);
    } else {
      assert s.queue + ms + [m] == s.queue + (ms + [m]);
    }
  }

  lemma {:induction false} SendAllExtends(s: Client, ms: seq<Message>)
    ensures SendAll(s, ms) == Extended(s, ms)
  {
    if ms == [] {
      if IsOpen(s) {
        assert s.sockets[s.ws.value].sent + ms == s.sockets[s.ws.value].sent;
        assert s.sockets == s.sockets[s.ws.value := s.sockets[s.ws.value]];
      } else {
        assert s.queue + ms == s.queue;
      }
    } else {
      var init := ms[..|ms| - 1];
      assert ms == init + [ms[|ms| - 1]];
      SendAllExtends(s, init);
      ExtendedSnoc(s, init, ms[|ms| - 1]);
    }
  }

  lemma ReplayAll(ms: seq<Message>, order: seq<Channel>, channels: set<Channel>)
    requires Enumerates(order, channels) && Replay(ms) <= channels
    ensures Replay(ms + Subscribes(order)) == channels
  {
    ReplaySubscribes(ms, order, |order|);
    assert Subscribes(order)[..|order|] == Subscribes(order);
    assert (set i | 0 <= i < |order| :: order[i]) == channels;
  }

  /** The flush and the resubscription, whichever socket opened. */
  lemma Resubscribed(s: Client, order: seq<Channel>)
    requires forall c | c in s.subscriptions :: s.subscriptions[c] != {}
    requires forall id | id in s.sockets && s.sockets[id].phase.Connecting? :: s.sockets[id].sent == []
    requires Enumerates(order, s.subscriptions.Keys)
    requires IsOpen(s) ==> Replay(s.sockets[s.ws.value].sent + s.queue) <= s.subscriptions.Keys
    requires !IsOpen(s) ==> s.queue == []
    ensures Inv(SendAll(SendAll(s.(queue := []), s.queue), Subscribes(order)))
  {
    var s1, ms := s.(queue := []), s.queue + Subscribes(order);
    SentTwice(s1, s.queue, Subscribes(order));
    var sent := if IsOpen(s) then s.sockets[s.ws.value].sent else [];
    assert sent + s.queue + Subscribes(order) == sent + ms;
    assert sent + s.queue == [] ==> Replay(sent + s.queue) == {};
    ReplayAll(sent + s.queue, order, s.subscriptions.Keys);
    ExtendedHasInv(s1, ms);
  }

  lemma SentTwice(s: Client, a: seq<Message>, b: seq<Message>)
    ensures SendAll(SendAll(s, a), b) == Extended(s, a + b)
  {
    SendAllExtends(s, a);
    SendAllExtends(Extended(s, a), b);
    ExtendedTwice(s, a, b);
  }

  lemma ExtendedTwice(s: Client, a: seq<Message>, b: seq<Message>)
    ensures Extended(Extended(s, a), b) == Extended(s, a + b)
  {
    if IsOpen(s) {
      assert s.sockets[s.ws.value].sent + a + b == s.sockets[s.ws.value].sent + (a + b);
    } else {
      assert s.queue + a + b == s.queue + (a + b);
    }
  }

  lemma ExtendedHasInv(s: Client, ms: seq<Message>)
    requires forall c | c in s.subscriptions :: s.subscriptions[c] != {}
    requires forall id | id in s.sockets && s.sockets[id].phase.Connecting? :: s.sockets[id].sent == []
    requires s.queue == []
    requires Replay((if IsOpen(s) then s.sockets[s.ws.value].sent else []) + ms) == s.subscriptions.Keys
    ensures Inv(Extended(s, ms))
  {
  }

  lemma OpenKeepsInv(s: Client, id: nat, order: seq<Channel>)
    requires Inv(s)
    ensures Inv(Apply(s, OnOpen(id, order)))
  {
    if !s.hung && id in s.sockets && s.sockets[id].phase.Connecting? && Enumerates(order, s.subscriptions.Keys) {
      var s1 := WithPhase(s, id, Opened).(isConnecting := false);
      if s1.queue == [] || IsOpen(s1) {
        if IsOpen(s1) {
          var sent := s1.sockets[s.ws.value].sent;
          if s.ws.value == id {
            assert sent + s.queue == s.queue;
          } else {
            assert sent + s.queue == sent;
          }
        }
        Resubscribed(s1, order);
      }
    }
  }

  /** What sending one message does to either side. */
  lemma SendKeeps(s: Client, m: Message)
    requires Inv(s) && !s.hung
    ensures var s' := Send(s, m);
      && (IsOpen(s') <==> IsOpen(s)) && s'.ws == s.ws && !s'.hung && s'.subscriptions == s.subscriptions
      && (forall id | id in s'.sockets && s'.sockets[id].phase.Connecting? :: s'.sockets[id].sent == [])
      && if IsOpen(s)
         then s'.queue == [] && Replay(s'.sockets[s.ws.value].sent) == Effect(s.subscriptions.Keys, m)
         else Replay(s'.queue) <= Effect(s.subscriptions.Keys, m)
  {
    ReplaySnoc(if IsOpen(s) then s.sockets[s.ws.value].sent else s.queue, m);
  }

  lemma SubscribeKeepsInv(s: Client, c: Channel, h: Handler)
    requires Inv(s)
    ensures Inv(Apply(s, DoSubscribe(c, h)))
  {
    if !s.hung && c !in s.subscriptions {
      SendKeeps(s, Subscribe(c));
    }
  }

  lemma UnsubscribeKeepsInv(s: Client, c: Channel, h: Handler)
    requires Inv(s)
    ensures Inv(Apply(s, CallUnsubscribe(c, h)))
  {
    if !s.hung && c in s.subscriptions && s.subscriptions[c] - {h} == {} {
      SendKeeps(s, Unsubscribe(c));
    }
  }

  lemma StepKeepsInv(s: Client, e: Event)
    requires Inv(s)
    ensures Inv(Apply(s, e))
  {
    if !s.hung {
      match e
      case OnOpen(id, order) => OpenKeepsInv(s, id, order);
      case DoSubscribe(c, h) => SubscribeKeepsInv(s, c, h);
      case CallUnsubscribe(c, h) => UnsubscribeKeepsInv(s, c, h);
      case PingTick => SendKeeps(s, Ping);
      case _ => ConnectionKeepsInv(s, e);
    }
  }

  lemma ConnectionKeepsInv(s: Client, e: Event)
    requires Inv(s) && (e.Connect? || e.OnError? || e.Fade? || e.OnClose? || e.Disconnect?)
    ensures Inv(Apply(s, e))
  {
    assert Replay([]) == {};
  }

  /** Main theorem. After any events, whenever the socket is open, the messages sent on it
      leave an initially empty server with exactly the channels that have a live handler. */
  lemma {:induction false} ServerMatchesSubscriptions(s: Client, es: seq<Event>)
    requires Inv(s)
    ensures Inv(Run(s, es))
    ensures var s' := Run(s, es);
      !s'.hung && IsOpen(s') ==> s'.queue == [] && Replay(s'.sockets[s'.ws.value].sent) == Live(s')
    decreases es
  {
    if es == [] {
      assert Live(s) == s.subscriptions.Keys;
    } else {
      StepKeepsInv(s, es[0]);
      ServerMatchesSubscriptions(Apply(s, es[0]), es[1..]);
    }
  }

  // ---------- The flush loop ----------

  /** `n` iterations of the loop in onopen: take the first queued message and send it. */
  function Flushed(s: Client, n: nat): Client {
    if n == 0 then s
    else
      var s' := Flushed(s, n - 1);
      if s'.queue == [] then s' else Send(s'.(queue := s'.queue[1..]), s'.queue[0])
  }

  lemma {:induction false} FlushProgress(s: Client, n: nat)
    ensures IsOpen(Flushed(s, n)) <==> IsOpen(s)
    ensures |Flushed(s, n).queue| == if !IsOpen(s) then |s.queue| else if n < |s.queue| then |s.queue| - n else 0
  {
    if n > 0 {
      FlushProgress(s, n - 1);
    }
  }

  /** The loop ends exactly when the client's own socket is open or nothing is queued. When
      another, older socket opens first, it sends each message straight back to the queue. */
  lemma FlushTerminatesIff(s: Client)
    ensures (exists n: nat :: Flushed(s, n).queue == []) <==> IsOpen(s) || s.queue == []
  {
    FlushProgress(s, |s.queue|);
    if IsOpen(s) || s.queue == [] {
      assert Flushed(s, |s.queue|).queue == [];
    } else {
      forall n: nat ensures Flushed(s, n).queue != [] {
        FlushProgress(s, n);
      }
    }
  }

  /** A connect makes a socket while another one is still connecting. */
  ghost predicate Overlaps(s: Client, e: Event) {
    && e.Connect? && Apply(s, e) != s
    && exists id :: id in s.sockets && s.sockets[id].phase.Connecting?
  }

  ghost predicate NeverOverlaps(s: Client, es: seq<Event>)
    decreases es
  {
    es == [] || (!Overlaps(s, es[0]) && NeverOverlaps(Apply(s, es[0]), es[1..]))
  }

  /** The only socket still connecting is the client's own. */
  ghost predicate OwnConnecting(s: Client) {
    forall id | id in s.sockets && s.sockets[id].phase.Connecting? :: s.ws == Some(id)
  }

  lemma SendAllKeepsPhases(s: Client, ms: seq<Message>)
    ensures var s' := SendAll(s, ms);
      && s'.hung == s.hung && s'.ws == s.ws && s'.sockets.Keys == s.sockets.Keys
      && forall id | id in s.sockets :: s'.sockets[id].phase == s.sockets[id].phase
  {
    SendAllExtends(s, ms);
  }

  lemma OpenCannotHang(s: Client, id: nat, order: seq<Channel>)
    requires !s.hung && OwnConnecting(s)
    ensures var s' := Apply(s, OnOpen(id, order));
      !s'.hung && OwnConnecting(s')
  {
    if id in s.sockets && s.sockets[id].phase.Connecting? && Enumerates(order, s.subscriptions.Keys) {
      var s1 := WithPhase(s, id, Opened).(isConnecting := false);
      assert IsOpen(s1);
      SendAllKeepsPhases(s1.(queue := []), s1.queue);
      SendAllKeepsPhases(SendAll(s1.(queue := []), s1.queue), Subscribes(order));
    }
  }

  lemma StepCannotHang(s: Client, e: Event)
    requires !s.hung && OwnConnecting(s) && !Overlaps(s, e)
    ensures !Apply(s, e).hung && OwnConnecting(Apply(s, e))
  {
    if e.OnOpen? {
      OpenCannotHang(s, e.id, e.order);
    }
  }

  /** A client hangs only in a run in which a connect made a socket while another one was
      still connecting. */
  lemma {:induction false} HangsOnlyAfterOverlap(s: Client, es: seq<Event>)
    requires !s.hung && OwnConnecting(s) && NeverOverlaps(s, es)
    ensures !Run(s, es).hung
    decreases es
  {
    if es != [] {
      StepCannotHang(s, es[0]);
      HangsOnlyAfterOverlap(Apply(s, es[0]), es[1..]);
    }
  }

  /** Two sockets connecting, the older one no longer the client's. */
  function Overtaken(queue: seq<Message>, subscriptions: map<Channel, set<Handler>>): Client {
    Client(Some(2), map[0 := Socket(Closed, []), 1 := Socket(Connecting, []), 2 := Socket(Connecting, [])],
           true, queue, subscriptions, false)
  }

  /** A client that connected and disconnected once; the close event is still to come. */
  function Departed(): Client { Client(None, map[0 := Socket(Closing, [])], false, [], map[], false) }

  lemma DepartedIsReachable()
    ensures Run(Start, [Connect(0), OnOpen(0, []), Disconnect]) == Departed()
  {
    var s1 := Client(Some(0), map[0 := Socket(Connecting, [])], true, [], map[], false);
    var s2 := Client(Some(0), map[0 := Socket(Opened, [])], false, [], map[], false);
    assert Apply(s1, OnOpen(0, [])) == s2;
    Unroll([Connect(0), OnOpen(0, []), Disconnect], [Start, s1, s2, Departed()]);
  }

  /** Reconnecting before the old socket's close event arrives leads there. */
  lemma DepartedIsOvertaken()
    ensures Run(Departed(), [Connect(1), OnClose(0), Connect(2)]) == Overtaken([], map[])
  {
    var s4 := Client(Some(1), map[0 := Socket(Closing, []), 1 := Socket(Connecting, [])], true, [], map[], false);
    var s5 := Client(Some(1), map[0 := Socket(Closed, []), 1 := Socket(Connecting, [])], false, [], map[], false);
    Unroll([Connect(1), OnClose(0), Connect(2)], [Departed(), s4, s5, Overtaken([], map[])]);
  }

  /** From there a subscription and the older socket's open event hang the client. */
  lemma FlushCanSpin(c: Channel, h: Handler)
    ensures Run(Start, [Connect(0), OnOpen(0, []), Disconnect] + [Connect(1), OnClose(0), Connect(2)]
                       + [DoSubscribe(c, h), OnOpen(1, [c])]).hung
  {
    DepartedIsReachable();
    DepartedIsOvertaken();
    OvertakenHangs(c, h);
    RunAppend(Start, [Connect(0), OnOpen(0, []), Disconnect], [Connect(1), OnClose(0), Connect(2)]);
    RunAppend(Start, [Connect(0), OnOpen(0, []), Disconnect] + [Connect(1), OnClose(0), Connect(2)],
              [DoSubscribe(c, h), OnOpen(1, [c])]);
  }

  lemma OvertakenHangs(c: Channel, h: Handler)
    ensures Run(Overtaken([], map[]), [DoSubscribe(c, h), OnOpen(1, [c])]).hung
  {
    var s0 := Overtaken([], map[]);
    var s1 := Overtaken([Subscribe(c)], map[c := {h}]);
    assert Apply(s0, DoSubscribe(c, h)) == s1;
    var s2 := Apply(s1, OnOpen(1, [c]));
    Unroll([DoSubscribe(c, h), OnOpen(1, [c])], [s0, s1, s2]);
  }

  lemma {:induction false} RunAppend(s: Client, es: seq<Event>, fs: seq<Event>)
    ensures Run(s, es + fs) == Run(Run(s, es), fs)
    decreases es
  {
    if es == [] {
      assert es + fs == fs;
    } else {
      assert (es + fs)[1..] == es[1..] + fs;
      RunAppend(Apply(s, es[0]), es[1..], fs);
    }
  }

  lemma {:induction false} Unroll(es: seq<Event>, ss: seq<Client>)
    requires |ss| == |es| + 1
    requires forall i | 0 <= i < |es| :: ss[i + 1] == Apply(ss[i], es[i])
    ensures Run(ss[0], es) == ss[|es|]
    decreases es
  {
    if es != [] {
      var rest := ss[1..];
      forall i | 0 <= i < |es| - 1 ensures rest[i + 1] == Apply(rest[i], es[1..][i]) {
        assert es[1..][i] == es[i + 1];
      }
      Unroll(es[1..], rest);
      assert ss[1] == Apply(ss[0], es[0]);
    }
  }

  /** The first `i` of the queued messages are sent, by a client that was `begun`. */
  ghost predicate Flushing(s: Client, begun: Client, queued: seq<Message>, i: nat) {
    && i <= |queued| && s.queue == queued[i..]
    && (IsOpen(s) <==> IsOpen(begun)) && (IsOpen(begun) || queued == [])
    && s == SendAll(begun, queued[..i]).(queue := queued[i..])
  }

  // ---------- The client ----------

  class WebSocketClient {
    var ws: Option<nat>
    var sockets: map<nat, Socket>
    var isConnecting: bool
    var messageQueue: seq<Message>
    var subscriptions: map<Channel, set<Handler>>
    var hung: bool

    constructor ()
      ensures View() == Start && Inv(View())
    {
      ws, sockets, isConnecting, messageQueue, subscriptions, hung := None, map[], false, [], map[], false;
    }

    function View(): Client
      reads this
    {
      Client(ws, sockets, isConnecting, messageQueue, subscriptions, hung)
    }

    method OpenSocket(id: nat)
      requires !hung
      modifies this
      ensures View() == Apply(old(View()), Event.Connect(id))
    {
      if IsOpen(View()) || isConnecting || id in sockets { return; }
      isConnecting := true;
      sockets := sockets[id := Socket(Connecting, [])];
      ws := Some(id);
    }

    method Transmit(m: Message)
      modifies this`sockets, this`messageQueue
      ensures View() == Send(old(View()), m)
    {
      if IsOpen(View()) {
        var socket := sockets[ws.value];
        sockets := sockets[ws.value := socket.(sent := socket.sent + [m])];
      } else {
        messageQueue := messageQueue + [m];
      }
    }

    method HandleOpen(id: nat, order: seq<Channel>)
      requires !hung && id in sockets && sockets[id].phase.Connecting?
      requires Enumerates(order, subscriptions.Keys)
      modifies this
      ensures View() == Apply(old(View()), Event.OnOpen(id, order))
    {
      sockets := sockets[id := sockets[id].(phase := Opened)];
      isConnecting := false;
      if messageQueue != [] && !IsOpen(View()) {
        hung := true;                    // while (queue.length > 0) never ends
        return;
      }
      FlushQueue();
      Resubscribe(order);
    }

    method FlushQueue()
      requires IsOpen(View()) || messageQueue == []
      modifies this`sockets, this`messageQueue
      ensures View() == SendAll(old(View()).(queue := []), old(messageQueue))
    {
      ghost var begun, queued := View().(queue := []), messageQueue;
      assert queued[..0] == [];
      ghost var i := 0;
      while |messageQueue| > 0
        invariant Flushing(View(), begun, queued, i)
        decreases |messageQueue|
      {
        FlushOne(begun, queued, i);
        i := i + 1;
      }
      assert queued[..i] == queued;
      SendAllExtends(begun, queued);
    }

    /** One round: shift and send. */
    method FlushOne(ghost begun: Client, ghost queued: seq<Message>, ghost i: nat)
      requires messageQueue != [] && Flushing(View(), begun, queued, i)
      modifies this`sockets, this`messageQueue
      ensures Flushing(View(), begun, queued, i + 1) && |messageQueue| < |old(messageQueue)|
    {
      var m := messageQueue[0];
      messageQueue := messageQueue[1..];
      SendAllExtends(begun, queued[..i]);
      assert queued[..i + 1] == queued[..i] + [m];
      assert queued[..i + 1][..i] == queued[..i];
      Transmit(m);
    }

    method Resubscribe(order: seq<Channel>)
      modifies this`sockets, this`messageQueue
      ensures View() == SendAll(old(View()), Subscribes(order))
    {
      var k := 0;
      while k < |order|
        invariant 0 <= k <= |order|
        invariant View() == SendAll(old(View()), Subscribes(order)[..k])
      {
        assert Subscribes(order)[..k + 1][..k] == Subscribes(order)[..k];
        Transmit(Message.Subscribe(order[k]));
        k := k + 1;
      }
      assert Subscribes(order)[..k] == Subscribes(order);
    }

    method HandleClose(id: nat)
      requires !hung && id in sockets && !sockets[id].phase.Closed?
      modifies this
      ensures View() == Apply(old(View()), Event.OnClose(id))
    {
      sockets := sockets[id := sockets[id].(phase := Closed)];
      isConnecting := false;
    }

    method CloseSocket()
      requires !hung
      modifies this
      ensures View() == Apply(old(View()), Event.Disconnect)
    {
      if ws.Some? {
        if ws.value in sockets && !sockets[ws.value].phase.Closed? {
          sockets := sockets[ws.value := sockets[ws.value].(phase := Closing)];
        }
        ws := None;
      }
    }

    method AddHandler(c: Channel, h: Handler)
      requires !hung
      modifies this
      ensures View() == Apply(old(View()), Event.DoSubscribe(c, h))
    {
      if c !in subscriptions {
        subscriptions := subscriptions[c := {}];
        Transmit(Message.Subscribe(c));
      }
      subscriptions := subscriptions[c := subscriptions[c] + {h}];
      if c !in old(subscriptions) {
        assert subscriptions[c] == {h};
        assert subscriptions == old(subscriptions)[c := {h}];
      }
    }

    /** The closure that AddHandler's original returns. */
    method RemoveHandler(c: Channel, h: Handler)
      requires !hung
      modifies this
      ensures View() == Apply(old(View()), Event.CallUnsubscribe(c, h))
    {
      if c in subscriptions {
        var handlers := subscriptions[c] - {h};
        subscriptions := subscriptions[c := handlers];
        if handlers == {} {
          subscriptions := subscriptions - {c};
          assert subscriptions == old(subscriptions) - {c};
          Transmit(Message.Unsubscribe(c));
        }
      }
    }
  }
}
