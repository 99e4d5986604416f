/**
  The running server as a step system at lock granularity. A step is one critical section, one
  channel operation, or one move of a session or writer task; every interleaving of them is a run.
  A client's rows in the two registries, its channel and its two tasks are the columns of one record
  per token. `log` is every chat message ever recorded, in recording order.
 */
module Protocol {
  import opened Common
  import opened Delivery
  import Registry
  import Text
  import Utf8
  import Handshake
  import F = Frames

  /** A recorded chat line, by identity: who it is about, and when it says what. */
  datatype Entry = Join(who: Token) | Leave(who: Token) | Say(who: Token, time: string, text: string)

  datatype Message = Chat(entry: Entry) | Presence(users: seq<string>)

  /** Where the task that reads from a client's socket is. */
  datatype SessionPc =
    | Registered   // registered, username not yet set
    | Waiting      // username set, history not yet asked for
    | Replaying    // inside the history replay
    | Replayed     // marked ready, join not yet recorded
    | Joining      // broadcasting its join
    | Announced    // join broadcast, `joined` not yet set
    | Chatting     // in the read loop
    | Talking      // broadcasting a chat line
    | Ending       // about to take its client out of the registries
    | Removed      // took its client out itself
    | Leaving      // broadcasting its leave
    | Done

  /** Where the task that writes to a client's socket is. */
  datatype WriterPc =
    | NotSpawned
    | Writing      // draining the channel
    | Failed       // a write failed, about to take the client out of the registries
    | Removed      // took the client out itself
    | Leaving      // broadcasting the leave
    | Stopped

  datatype Client = Client(
    username: string,          // what the handshake accepted
    session: Option<Registry.ClientSession>,
    delivery: Option<ClientDelivery<Message>>,
    channel: Channel<Message>,
    disconnect: bool,
    joined: bool,
    pc: SessionPc,
    writer: WriterPc,
    since: nat,                // first log position broadcast to it
    replayedAt: Option<nat>)   // log length when its history snapshot was taken

  /** Whose call a removal is. Only the session and the writer of the client look at its result. */
  datatype Caller = BySession | ByWriter | ByOther

  datatype ClientsLock = ClientsFree | Taking(t: Token, caller: Caller)

  datatype DeliveriesLock =
    | DeliveriesFree
    | Delivering(message: Message, todo: set<Token>, doomed: set<Token>)
    | Flushing(t: Token, done: seq<Message>, rest: seq<Message>)

  /** How far a recorded message is: not yet offered, being offered, or its doomed being removed. */
  datatype Stage = Recorded | Offering | Dooming(doomed: set<Token>)

  datatype Barrier =
    | Open
    | Replay(t: Token, history: seq<Entry>)
    | Broadcasting(author: Token, byWriter: bool, stage: Stage)

  datatype World = World(
    clients: map<Token, Client>,
    history: seq<Entry>,
    log: seq<Entry>,
    barrier: Barrier,
    clientsLock: ClientsLock,
    deliveriesLock: DeliveriesLock)

  const START := World(map[], [], [], Open, ClientsFree, DeliveriesFree)

  datatype Step =
    | Register(t: Token, addr: SocketAddr, username: string)
    | SetUsername(t: Token)
    | ReplayBegin(t: Token)
    | ReplaySend
    | FlushBegin
    | FlushSend
    | FlushEnd
    | PresenceBegin(users: seq<string>)
    | OfferTo(t: Token)
    | OfferEnd
    | ChatBegin(t: Token, byWriter: bool, entry: Entry)
    | ChatOffer
    | SkipGone(t: Token)
    | ChatEnd
    | SetJoined(t: Token)
    | SessionStop(t: Token)
    | RemoveBegin(t: Token, caller: Caller)
    | RemoveMiss(t: Token, caller: Caller)
    | RemoveEnd
    | SessionQuit(t: Token)
    | Write(t: Token, ok: bool)
    | WriterQuit(t: Token)

  /** The server after one step, if that step can be taken. */
  function Next(w: World, s: Step): Option<World> {
    match s
    case Register(t, addr, username) => RegisterStep(w, t, addr, username)
    case SetUsername(t) => SetUsernameStep(w, t)
    case ReplayBegin(t) => ReplayBeginStep(w, t)
    case ReplaySend => ReplaySendStep(w)
    case FlushBegin => FlushBeginStep(w)
    case FlushSend => FlushSendStep(w)
    case FlushEnd => FlushEndStep(w)
    case PresenceBegin(users) => PresenceBeginStep(w, users)
    case OfferTo(t) => OfferToStep(w, t)
    case OfferEnd => OfferEndStep(w)
    case ChatBegin(t, byWriter, entry) => ChatBeginStep(w, t, byWriter, entry)
    case ChatOffer => ChatOfferStep(w)
    case SkipGone(t) => SkipGoneStep(w, t)
    case ChatEnd => ChatEndStep(w)
    case SetJoined(t) => SetJoinedStep(w, t)
    case SessionStop(t) => SessionStopStep(w, t)
    case RemoveBegin(t, caller) => RemoveBeginStep(w, t, caller)
    case RemoveMiss(t, caller) => RemoveMissStep(w, t, caller)
    case RemoveEnd => RemoveEndStep(w)
    case SessionQuit(t) => SessionQuitStep(w, t)
    case Write(t, ok) => WriteStep(w, t, ok)
    case WriterQuit(t) => WriterQuitStep(w, t)
  }

  /** The server after a run of steps from a given state, if that run can happen. */
  function RunFrom(w: World, steps: seq<Step>): Option<World> {
    if steps == [] then
      Some(w)
    else
      var w' := RunFrom(w, steps[..|steps| - 1]);
      if w'.None? then None else Next(w'.value, steps[|steps| - 1])
  }

  /** The server after a run of steps from its start. */
  function Run(steps: seq<Step>): Option<World> {
    RunFrom(START, steps)
  }

  ghost predicate Leads(w: World, w': World) {
    exists steps :: RunFrom(w, steps) == Some(w')
  }

  ghost predicate Reachable(w: World) {
    Leads(START, w)
  }

  lemma LeadsNowhere(w: World)
    ensures Leads(w, w)
  {
    assert RunFrom(w, []) == Some(w);
  }

  lemma LeadsNext(from: World, w: World, s: Step, w': World)
    requires Leads(from, w) && Next(w, s) == Some(w')
    ensures Leads(from, w')
  {
    var steps :| RunFrom(from, steps) == Some(w);
    assert (steps + [s])[..|steps|] == steps;
    assert RunFrom(from, steps + [s]) == Some(w');
  }

  function Put(w: World, t: Token, c: Client): World {
    w.(clients := w.clients[t := c])
  }

  function DeliveryTokens(w: World): set<Token> {
    set t | t in w.clients && w.clients[t].delivery.Some?
  }

  /** `register_pending_client` after a handshake: both rows appear under the clients and deliveries locks. */
  function RegisterStep(w: World, t: Token, addr: SocketAddr, username: string): Option<World> {
    if Handshake.IsAccepted(username) && t !in w.clients
       && w.clientsLock == ClientsFree && w.deliveriesLock == DeliveriesFree then
      var since := if w.barrier.Broadcasting? && w.barrier.stage == Recorded && |w.log| > 0
                   then |w.log| - 1 else |w.log|;
      Some(Put(w, t, Client(username, Some(Registry.ClientSession(addr, None)), Some(ClientDelivery(addr, false, [])),
                            Channel([], [], false), false, false, Registered, NotSpawned,
                            since, None)))
    else None
  }

  /** `set_client_username`, then the writer is spawned; an unknown client ends its session. */
  function SetUsernameStep(w: World, t: Token): Option<World> {
    if t in w.clients && w.clients[t].pc == Registered && w.clientsLock == ClientsFree then
      var c := w.clients[t];
      if c.session.Some? then
        Some(Put(w, t, c.(session := Some(c.session.value.(username := Some(c.username))),
                          pc := Waiting, writer := Writing)))
      else
        Some(Put(w, t, c.(pc := SessionPc.Done, channel := c.channel.(closed := true))))
    else None
  }

  /** The barrier is taken, the client looked up and the history copied. */
  function ReplayBeginStep(w: World, t: Token): Option<World> {
    if t in w.clients && w.clients[t].pc == Waiting && w.barrier == Open
       && w.deliveriesLock == DeliveriesFree then
      var c := w.clients[t];
      if c.delivery.Some? then
        Some(Put(w, t, c.(pc := Replaying, replayedAt := Some(|w.log|)))
             .(barrier := Replay(t, w.history)))
      else
        Some(Put(w, t, c.(pc := Ending)))
    else None
  }

  /** One history frame is offered to the channel of the replaying client. */
  function ReplaySendStep(w: World): Option<World> {
    if w.barrier.Replay? && w.barrier.t in w.clients && w.barrier.history != [] then
      var t, c := w.barrier.t, w.clients[w.barrier.t];
      var (result, channel) := TrySend(c.channel, Chat(w.barrier.history[0]));
      if result == Sent then
        Some(Put(w, t, c.(channel := channel)).(barrier := Replay(t, w.barrier.history[1..])))
      else
        Some(Put(w, t, c.(pc := Ending)).(barrier := Open))
    else None
  }

  /** `mark_client_ready` takes the deliveries lock and the held-back messages. */
  function FlushBeginStep(w: World): Option<World> {
    if w.barrier.Replay? && w.barrier.t in w.clients && w.barrier.history == []
       && w.deliveriesLock == DeliveriesFree then
      var t, c := w.barrier.t, w.clients[w.barrier.t];
      if c.delivery.Some? then
        Some(Put(w, t, c.(delivery := Some(c.delivery.value.(pending := []))))
             .(deliveriesLock := Flushing(t, [], c.delivery.value.pending)))
      else
        Some(Put(w, t, c.(pc := Ending)).(barrier := Open))
    else None
  }

  /** One held-back message moves into the channel; a refusal puts the rest back. */
  function FlushSendStep(w: World): Option<World> {
    if w.deliveriesLock.Flushing? && w.deliveriesLock.rest != [] && w.deliveriesLock.t in w.clients
       && w.clients[w.deliveriesLock.t].delivery.Some? then
      var Flushing(t, done, rest) := w.deliveriesLock;
      var c := w.clients[t];
      var (result, channel) := TrySend(c.channel, rest[0]);
      if result == Sent then
        Some(Put(w, t, c.(channel := channel))
             .(deliveriesLock := Flushing(t, done + [rest[0]], rest[1..])))
      else
        Some(Put(w, t, c.(delivery := Some(c.delivery.value.(pending := rest)), pc := Ending))
             .(deliveriesLock := DeliveriesFree, barrier := Open))
    else None
  }

  /** Everything was moved: the client is ready and both locks are released. */
  function FlushEndStep(w: World): Option<World> {
    if w.deliveriesLock.Flushing? && w.deliveriesLock.rest == [] && w.deliveriesLock.t in w.clients
       && w.clients[w.deliveriesLock.t].delivery.Some? then
      var t, c := w.deliveriesLock.t, w.clients[w.deliveriesLock.t];
      Some(Put(w, t, c.(delivery := Some(c.delivery.value.(ready := true)), pc := Replayed))
           .(deliveriesLock := DeliveriesFree, barrier := Open))
    else None
  }

  /** Any task may start offering a presence frame; it does not take the barrier. */
  function PresenceBeginStep(w: World, users: seq<string>): Option<World> {
    if w.deliveriesLock == DeliveriesFree then
      Some(w.(deliveriesLock := Delivering(Presence(users), DeliveryTokens(w), {})))
    else None
  }

  /** One iteration of the broadcast loop, in any order of the clients. */
  function OfferToStep(w: World, t: Token): Option<World> {
    if w.deliveriesLock.Delivering? && t in w.deliveriesLock.todo && t in w.clients
       && w.clients[t].delivery.Some? then
      var Delivering(message, todo, doomed) := w.deliveriesLock;
      var c := w.clients[t];
      var o := Offer(c.delivery.value, c.channel, message);
      Some(Put(w, t, c.(delivery := Some(o.delivery), channel := o.channel))
           .(deliveriesLock := Delivering(message, todo - {t},
                                          if o.doomed then doomed + {t} else doomed)))
    else None
  }

  /** The loop is over and the deliveries lock released; a chat broadcast now removes its doomed. */
  function OfferEndStep(w: World): Option<World> {
    if w.deliveriesLock.Delivering? && w.deliveriesLock.todo == {} then
      var w' := w.(deliveriesLock := DeliveriesFree);
      if w.deliveriesLock.message.Chat? && w.barrier.Broadcasting? then
        Some(w'.(barrier := w.barrier.(stage := Dooming(w.deliveriesLock.doomed))))
      else
        Some(w')
    else None
  }

  /** The read loop records only what is at most 4096 bytes and not blank, under the clock's time. */
  predicate MaySay(time: string, text: string) {
    Handshake.IsTimestamp(time) && |Utf8.Encode(text)| <= F.MAX_CHAT_MESSAGE_BYTES && !Text.IsBlank(text)
  }

  /** Which line a task may record next, and where that leaves it. */
  function Speak(c: Client, t: Token, byWriter: bool, entry: Entry): Option<Client> {
    if byWriter then
      if c.writer == WriterPc.Removed && c.joined && entry == Leave(t)
      then Some(c.(writer := WriterPc.Leaving)) else None
    else if c.pc == Replayed && entry == Join(t) then
      Some(c.(pc := Joining))
    else if c.pc == Chatting && entry.Say? && entry.who == t && MaySay(entry.time, entry.text) then
      Some(c.(pc := Talking))
    else if c.pc == SessionPc.Removed && c.joined && entry == Leave(t) then
      Some(c.(pc := SessionPc.Leaving))
    else None
  }

  /** `record_and_broadcast` takes the barrier and records the line. */
  function ChatBeginStep(w: World, t: Token, byWriter: bool, entry: Entry): Option<World> {
    if t in w.clients && w.barrier == Open && Speak(w.clients[t], t, byWriter, entry).Some? then
      Some(Put(w, t, Speak(w.clients[t], t, byWriter, entry).value)
           .(barrier := Broadcasting(t, byWriter, Recorded),
             history := PushBounded(w.history, entry, MESSAGE_HISTORY_LIMIT),
             log := w.log + [entry]))
    else None
  }

  /** The broadcast loop of the recorded line starts, over every client registered by now. */
  function ChatOfferStep(w: World): Option<World> {
    if w.barrier.Broadcasting? && w.barrier.stage == Recorded && w.deliveriesLock == DeliveriesFree
       && w.log != [] then
      Some(w.(barrier := w.barrier.(stage := Offering),
              deliveriesLock := Delivering(Chat(w.log[|w.log| - 1]), DeliveryTokens(w), {})))
    else None
  }

  /** The removal of a doomed client has returned: it is in no registry any more. */
  function SkipGoneStep(w: World, t: Token): Option<World> {
    if w.barrier.Broadcasting? && w.barrier.stage.Dooming? && t in w.barrier.stage.doomed
       && w.clientsLock == ClientsFree && t in w.clients && w.clients[t].session.None? then
      Some(w.(barrier := w.barrier.(stage := Dooming(w.barrier.stage.doomed - {t}))))
    else None
  }

  /** Where a task goes on once its line has been broadcast. */
  function Spoken(c: Client, byWriter: bool): Client {
    if byWriter then c.(writer := Stopped, channel := c.channel.(closed := true))
    else match c.pc
      case Joining => c.(pc := Announced)
      case Talking => c.(pc := Chatting)
      case Leaving => c.(pc := SessionPc.Done)
      case _ => c
  }

  /** All doomed clients are gone: the barrier is released. */
  function ChatEndStep(w: World): Option<World> {
    if w.barrier.Broadcasting? && w.barrier.stage == Dooming({}) && w.barrier.author in w.clients then
      Some(Put(w, w.barrier.author, Spoken(w.clients[w.barrier.author], w.barrier.byWriter))
           .(barrier := Open))
    else None
  }

  function SetJoinedStep(w: World, t: Token): Option<World> {
    if t in w.clients && w.clients[t].pc == Announced then
      Some(Put(w, t, w.clients[t].(joined := true, pc := Chatting)))
    else None
  }

  /** The read loop ends: disconnected, end of stream, bad frame or rate limit. */
  function SessionStopStep(w: World, t: Token): Option<World> {
    if t in w.clients && w.clients[t].pc == Chatting then
      Some(Put(w, t, w.clients[t].(pc := Ending)))
    else None
  }

  function MayRemove(c: Client, caller: Caller): bool {
    match caller
    case BySession => c.pc == Ending
    case ByWriter => c.writer == Failed
    case ByOther => true
  }

  /** First half of a removal: the session row goes and the clients lock stays held. */
  function RemoveBeginStep(w: World, t: Token, caller: Caller): Option<World> {
    if t in w.clients && w.clientsLock == ClientsFree && w.clients[t].session.Some?
       && MayRemove(w.clients[t], caller) then
      Some(Put(w, t, w.clients[t].(session := None)).(clientsLock := Taking(t, caller)))
    else None
  }

  /** A removal that finds nothing: its caller announces nothing and is done. */
  function RemoveMissStep(w: World, t: Token, caller: Caller): Option<World> {
    if t in w.clients && w.clientsLock == ClientsFree && w.clients[t].session.None?
       && MayRemove(w.clients[t], caller) then
      var c := w.clients[t];
      match caller
      case BySession => Some(Put(w, t, c.(pc := SessionPc.Done)))
      case ByWriter => Some(Put(w, t, c.(writer := Stopped, channel := c.channel.(closed := true))))
      case ByOther => Some(w)
    else None
  }

  /** Second half of a removal: the disconnect flag is raised and the delivery row goes. */
  function RemoveEndStep(w: World): Option<World> {
    if w.clientsLock.Taking? && w.clientsLock.t in w.clients && w.deliveriesLock == DeliveriesFree then
      var t := w.clientsLock.t;
      var c := w.clients[t].(delivery := None, disconnect := true);
      var c' := match w.clientsLock.caller
        case BySession => c.(pc := SessionPc.Removed)
        case ByWriter => c.(writer := WriterPc.Removed)
        case ByOther => c;
      Some(Put(w, t, c').(clientsLock := ClientsFree))
    else None
  }

  /** A session that never joined ends without a leave. */
  function SessionQuitStep(w: World, t: Token): Option<World> {
    if t in w.clients && w.clients[t].pc == SessionPc.Removed && !w.clients[t].joined then
      Some(Put(w, t, w.clients[t].(pc := SessionPc.Done)))
    else None
  }

  /** The writer takes one message and puts it on the socket, or fails to. */
  function WriteStep(w: World, t: Token, ok: bool): Option<World> {
    if t in w.clients && w.clients[t].writer == Writing && w.clients[t].channel.queue != [] then
      var c := w.clients[t];
      var channel := c.channel.(taken := c.channel.taken + [c.channel.queue[0]],
                                queue := c.channel.queue[1..]);
      Some(Put(w, t, c.(channel := channel, writer := if ok then Writing else Failed)))
    else None
  }

  /** The writer stops: every sender is gone, or it removed a client that had not joined. */
  function WriterQuitStep(w: World, t: Token): Option<World> {
    if t in w.clients
       && var c := w.clients[t];
          || (c.writer == Writing && c.channel.queue == [] && c.delivery.None?
              && !(w.barrier.Replay? && w.barrier.t == t))
          || (c.writer == WriterPc.Removed && !c.joined) then
      var c := w.clients[t];
      Some(Put(w, t, c.(writer := Stopped, channel := c.channel.(closed := true))))
    else None
  }
}
