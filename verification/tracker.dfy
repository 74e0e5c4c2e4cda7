/**
 The realtime status tracker of a video-processing job, as one immutable
 state record and pure transition functions.

 `WebSocketProvider` and `ProcessVideoWebSocket` keep this state in React
 hooks: `messageQueue` (a ref), `message`, `indicatorState`, `progressSteps`
 and `wsConnected`.  Socket callbacks (`onopen`, `onmessage`, `onclose`,
 `onerror`), the timers that call `connectWS`, and the 500 ms drain interval
 all run on one event loop, so each becomes one event applied to the state.
 The two implementations of the drain interval body are `ProviderTick` (the
 context provider) and `StandaloneTick` (the standalone component).
 */
module Tracker {
  import opened Seqs
  import opened Classifier
  import opened Catalog

  /** `IndicatorState`: `null`, `"syncing"`, `"error"` or `"success"`. */
  datatype Indicator = Unset | Syncing | Error | Success

  /** `error` and `success` end a job. */
  predicate IsTerminal(i: Indicator) {
    i.Error? || i.Success?
  }

  /** The connection manager: waiting on a timer that will call `connectWS`,
      holding a socket whose handshake is in progress, or holding an open
      socket. */
  datatype Link = Scheduled(delayMs: nat) | Handshaking | Live

  /** The delay of the first connection attempt. */
  const InitialConnectDelayMs: nat := 1000

  /** The delay before every reconnection attempt. */
  const ReconnectDelayMs: nat := 5000

  /** The period of the drain interval; each `Tick` event is one firing. */
  const TickIntervalMs: nat := 500

  datatype State = State(
    queue: seq<string>,
    message: string,
    indicator: Indicator,
    steps: seq<string>,
    connected: bool,
    link: Link)

  /** What can happen to the tracker: a text frame arrives, the socket
      opens, closes or reports an error, the pending connection timer fires,
      or the drain interval fires. */
  datatype Event = Frame(data: string) | Open | Close | SocketError | TimerFire | Tick

  /** Which implementation of the drain interval runs. */
  datatype Variant = Provider | Standalone

  /** The state on mount: nothing received, the first connection attempt
      scheduled. */
  function Init(): (s: State)
    ensures Valid(s) && ProgressPercent(s) == 0
    ensures s.queue == [] && s.indicator == Unset && !s.connected
    ensures s.link == Scheduled(InitialConnectDelayMs)
  {
    State([], "", Unset, [], false, Scheduled(InitialConnectDelayMs))
  }

  /** The catalog each variant matches milestones against. */
  function StepsOf(v: Variant): seq<Step> {
    match v
    case Provider => ProviderSteps
    case Standalone => StandaloneSteps
  }

  /** The milestone list after `msg` is matched against `catalog`: the label
      of the first step the message reveals is appended unless present. */
  function Reached(steps: seq<string>, catalog: seq<Step>, msg: string): (r: seq<string>)
    ensures IsPrefix(steps, r) && |r| <= |steps| + 1
    ensures Elems(r) == Elems(steps) + (match Find(catalog, msg)
      case None => {}
      case Some(k) => {catalog[k].labelText})
    ensures NoDuplicates(steps) ==> NoDuplicates(r)
  {
    match Find(catalog, msg)
    case None => steps
    case Some(k) =>
      if catalog[k].labelText in steps then steps else steps + [catalog[k].labelText]
  }

  /** The drain interval body of the context provider.  The indicator is
      recomputed from every message; a failure empties the queue; the
      milestone is recorded in every case. */
  function ProviderTick(s: State): (r: State)
    ensures r.connected == s.connected && r.link == s.link
    ensures s.queue == [] ==> r == s
    ensures s.queue != [] ==> r.message == s.queue[0] && |r.queue| < |s.queue|
    ensures IsPrefix(s.steps, r.steps) && |r.steps| <= |s.steps| + 1
  {
    if s.queue == [] then s
    else
      var msg := s.queue[0];
      var failed := IsFailure(msg);
      s.(queue := if failed then [] else s.queue[1..],
         message := msg,
         indicator := if failed then Error else if IsProviderSuccess(msg) then Success else Syncing,
         steps := Reached(s.steps, ProviderSteps, msg))
  }

  /** The drain interval body of the standalone component.  Once the
      indicator is terminal it is left alone; a failure seen before that
      empties the queue and ends the tick before milestone matching. */
  function StandaloneTick(s: State): (r: State)
    ensures r.connected == s.connected && r.link == s.link
    ensures s.queue == [] ==> r == s
    ensures s.queue != [] ==> r.message == s.queue[0] && |r.queue| < |s.queue|
    ensures IsTerminal(s.indicator) ==> r.indicator == s.indicator
    ensures IsPrefix(s.steps, r.steps) && |r.steps| <= |s.steps| + 1
  {
    if s.queue == [] then s
    else
      var msg := s.queue[0];
      var settled := IsTerminal(s.indicator);
      var failed := !settled && IsFailure(msg);
      s.(queue := if failed then [] else s.queue[1..],
         message := msg,
         indicator := if settled then s.indicator
                      else if failed then Error
                      else if IsStandaloneSuccess(msg) then Success
                      else Syncing,
         steps := if failed then s.steps else Reached(s.steps, StandaloneSteps, msg))
  }

  /** `onmessage`: the frame goes to the back of the queue. */
  function OnFrame(s: State, data: string): (r: State)
    ensures |r.queue| == |s.queue| + 1
    ensures r.queue[..|s.queue|] == s.queue && r.queue[|s.queue|] == data
    ensures r.(queue := s.queue) == s
  {
    s.(queue := s.queue + [data])
  }

  /** `onopen` of the socket being set up. */
  function OnOpen(s: State): (r: State)
    ensures r.connected <==> s.connected || s.link.Handshaking?
    ensures s.link.Handshaking? ==> r.link == Live
    ensures r.(connected := s.connected, link := s.link) == s
  {
    if s.link.Handshaking? then s.(connected := true, link := Live) else s
  }

  /** `onclose`: disconnected, and `connectWS` scheduled again. */
  function OnClose(s: State): (r: State)
    ensures r.link.Scheduled?
    ensures !s.link.Scheduled? ==> !r.connected && r.link == Scheduled(ReconnectDelayMs)
    ensures r.(connected := s.connected, link := s.link) == s
  {
    if s.link.Scheduled? then s
    else s.(connected := false, link := Scheduled(ReconnectDelayMs))
  }

  /** The pending timer fires and `connectWS` creates a new socket. */
  function OnTimer(s: State): (r: State)
    ensures !r.link.Scheduled?
    ensures s.link.Scheduled? ==> r.link == Handshaking
    ensures r.(link := s.link) == s
  {
    if s.link.Scheduled? then s.(link := Handshaking) else s
  }

  /** One event.  `onerror` calls `close()`, whose close event runs
      `onclose`; the drain interval only runs while connected. */
  function Apply(v: Variant, s: State, e: Event): (r: State)
    ensures e.Tick? && !s.connected ==> r == s
    ensures !s.connected && r.connected ==> e.Open?
    ensures !e.Tick? && !e.Frame? ==> r.(connected := s.connected, link := s.link) == s
  {
    match e
    case Frame(data) => OnFrame(s, data)
    case Open => OnOpen(s)
    case Close => OnClose(s)
    case SocketError => OnClose(s)
    case TimerFire => OnTimer(s)
    case Tick => if s.connected then Drain(v, s) else s
  }

  /** The drain interval body of a variant. */
  function Drain(v: Variant, s: State): State {
    match v
    case Provider => ProviderTick(s)
    case Standalone => StandaloneTick(s)
  }

  /** A sequence of events, applied in order. */
  function Run(v: Variant, s: State, es: seq<Event>): State
    decreases |es|
  {
    if es == [] then s else Run(v, Apply(v, s, es[0]), es[1..])
  }

  /** `progressPercent`, derived from the number of milestones reached. */
  function ProgressPercent(s: State): (p: nat)
    ensures p <= 100
    ensures |s.steps| >= TotalSteps ==> p == 100
  {
    Percent(|s.steps|)
  }

  /** What every reachable state satisfies: milestones are distinct catalog
      labels, and the connected flag is set exactly while a socket is open. */
  predicate Valid(s: State) {
    && NoDuplicates(s.steps)
    && Elems(s.steps) <= Elems(Labels(ProviderSteps))
    && (s.connected <==> s.link.Live?)
  }
}
