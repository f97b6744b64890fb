/**
 * Connecting to the RN-42 (`startConfiguration` and `connectRunnable`). The
 * Bluetooth stack is reduced to what one attempt observes of it: whether there
 * is an adapter, whether it is enabled, its paired devices in iteration order,
 * and whether opening an RFCOMM socket to the first of them succeeds.
 */
module Connect {
  import opened Wrappers
  import opened Bytes
  import opened Catalog
  import opened Transport
  import opened Sequencer

  /** A paired device; only its identity matters here. */
  datatype Device = Device(name: string)

  /** The default adapter as one attempt sees it. */
  datatype Adapter = Missing | Present(enabled: bool, bonded: seq<Device>)

  /** What one run of `connectRunnable` observes: the adapter and whether the socket connects. */
  datatype Probe = Probe(adapter: Adapter, connects: bool)

  /** `_device` and whether `_socket` holds a socket. */
  datatype Binding = Binding(device: Option<Device>, socketHeld: bool)

  /**
   * The fields one attempt leaves behind: the configure log, the binding,
   * whether `_state` was set to `Connected` (it is untouched otherwise), and
   * what is posted next: the sequencer after `After(0)` when connected, this
   * runnable again after 5 s, or nothing.
   */
  datatype Attempt = Attempt(log: seq<string>, binding: Binding, connected: bool, next: Schedule)

  const StartingLine: string := "Starting configurator...\n"
  const NoAdapterLine: string := "No Bluetooth adapter found, aborting.\n"
  const DisabledLine: string := "Bluetooth adapter found, but it is disabled. Aborting.\n"
  const EnabledLine: string := "Bluetooth enabled, checking for paired devices...\n"
  const NoPairedLine: string := "No paired bluetooth devices found. Retrying in 5 seconds.\n"

  /** `startConfiguration`: one log line, then the first attempt after 100 ms. */
  function StartConfiguration(log: seq<string>): (r: (seq<string>, Schedule))
    ensures |r.0| == |log| + 1 && r.0[..|log|] == log && r.0[|log|] == StartingLine
    ensures r.1 == After(StartDelayMs)
  {
    (log + [StartingLine], After(StartDelayMs))
  }

  /** An attempt with this probe finds a paired device and connects to it. */
  predicate Connects(p: Probe) {
    p.adapter.Present? && p.adapter.enabled && |p.adapter.bonded| > 0 && p.connects
  }

  /** An attempt with this probe asks to be run again in 5 s. */
  predicate Retries(p: Probe) {
    p.adapter.Present? && p.adapter.enabled && (|p.adapter.bonded| == 0 || !p.connects)
  }

  /**
   * One run of `connectRunnable`. The three messages built with `String.format`
   * are discarded by the source, so each logs an empty entry (no text).
   */
  function ConnectStep(p: Probe, b: Binding, log: seq<string>): (r: Attempt)
    ensures |r.log| > |log| && r.log[..|log|] == log
    ensures r.connected <==> Connects(p)
    ensures r.next == After(ConnectRetryMs) <==> Retries(p)
    ensures r.next == Idle <==> !p.adapter.Present? || !p.adapter.enabled
    ensures r.connected ==> r.next == After(0) && r.binding == Binding(Some(p.adapter.bonded[0]), true)
    ensures Retries(p) && |p.adapter.bonded| > 0 ==> r.binding == Binding(None, false)
    ensures !Connects(p) && !(Retries(p) && |p.adapter.bonded| > 0) ==> r.binding == b
  {
    match p.adapter
    case Missing => Attempt(log + [NoAdapterLine], b, false, Idle)
    case Present(enabled, bonded) =>
      if !enabled then Attempt(log + [DisabledLine], b, false, Idle)
      else if |bonded| == 0 then Attempt(log + [EnabledLine, NoPairedLine], b, false, After(ConnectRetryMs))
      else if p.connects then Attempt(log + [EnabledLine, "", ""], Binding(Some(bonded[0]), true), true, After(0))
      else Attempt(log + [EnabledLine, "", "", ""], Binding(None, false), false, After(ConnectRetryMs))
  }

  /**
   * The attempts `startConfiguration` sets off, one per probe, for as long as
   * each asks to be retried and probes remain; `tries` counts the attempts made.
   */
  function Attempts(probes: seq<Probe>, b: Binding, log: seq<string>): (r: (Attempt, nat))
    requires |probes| > 0
    decreases |probes|
  {
    var a := ConnectStep(probes[0], b, log);
    if a.next == After(ConnectRetryMs) && |probes| > 1 then
      var rest := Attempts(probes[1..], a.binding, a.log);
      (rest.0, rest.1 + 1)
    else (a, 1)
  }

  /**
   * Attempts stop at the first probe that does not ask for a retry, or when
   * the probes run out: every probe before the last one tried asked for a
   * retry, the session is handed to the sequencer exactly when the last probe
   * tried connects, and then to the first paired device that probe saw.
   */
  lemma {:induction false} AttemptsStopAtFirstDecision(probes: seq<Probe>, b: Binding, log: seq<string>)
    requires |probes| > 0
    ensures var (a, tries) := Attempts(probes, b, log);
      1 <= tries <= |probes|
      && (forall k :: 0 <= k < tries - 1 ==> Retries(probes[k]))
      && (a.connected <==> Connects(probes[tries - 1]))
      && (a.connected ==> a.next == After(0) && a.binding.device == Some(probes[tries - 1].adapter.bonded[0]))
      && (tries < |probes| ==> !Retries(probes[tries - 1]))
      && |a.log| > |log| && a.log[..|log|] == log
    decreases |probes|
  {
    var a := ConnectStep(probes[0], b, log);
    if a.next == After(ConnectRetryMs) && |probes| > 1 {
      AttemptsStopAtFirstDecision(probes[1..], a.binding, a.log);
      var (r, t) := Attempts(probes[1..], a.binding, a.log);
      assert Attempts(probes, b, log) == (r, t + 1);
      forall k | 0 <= k < t
        ensures Retries(probes[k])
      {
        if k > 0 {
          assert probes[k] == probes[1..][k - 1];
        }
      }
      assert probes[t] == probes[1..][t - 1];
      assert r.log[..|log|] == r.log[..|a.log|][..|log|];
    }
  }

  /** The transport of a socket that has just connected: nothing written, no streams, never closed. */
  predicate NewConnection(link: LinkState) {
    link.written == [] && !link.streamsOpen && link.closes == 0
  }

  /**
   * When an attempt connects, `_state` becomes `Connected` and the sequencer
   * runs on the socket the attempt created, with the activity's queues and
   * result view as they were and the configure view as the attempt left it,
   * which extends what it held before: the queues are not emptied, so the
   * session is `Fresh` exactly when nothing was left queued.
   */
  function HandOver(a: Attempt, prior: Session, link: LinkState): (s: Session)
    requires a.connected && NewConnection(link)
    requires |a.log| >= |prior.configureLog| && a.log[..|prior.configureLog|] == prior.configureLog
    ensures s.state == Connected && s.configureLog == a.log && s.link == link
    ensures s.configureLog[..|prior.configureLog|] == prior.configureLog
    ensures s.packets == prior.packets && s.descriptions == prior.descriptions && s.resultLog == prior.resultLog
    ensures Fresh(s) <==> prior.packets == [] && prior.descriptions == []
  {
    prior.(state := Connected, configureLog := a.log, link := link)
  }

  /**
   * Connecting again after a session that emptied its queues, whatever that
   * session wrote or closed, starts over: with no failures the new session
   * writes the whole script to the new socket, from the first packet.
   */
  lemma ReconnectStartsOver(a: Attempt, prior: Session, link: LinkState, envs: seq<Env>)
    requires a.connected && NewConnection(link) && !link.streamsFail
    requires |a.log| >= |prior.configureLog| && a.log[..|prior.configureLog|] == prior.configureLog
    requires prior.packets == [] && prior.descriptions == []
    requires |envs| == 8 && WritesSucceed(envs)
    ensures Ready(HandOver(a, prior, link))
    ensures Run(HandOver(a, prior, link), envs).last.link.written == Script()
  {
    var s := HandOver(a, prior, link);
    HappySession(s, envs);
    ScriptContents();
  }

  /**
   * A connection on the first attempt after the button: the configure log so
   * far is the start line, the enabled line and the two discarded messages,
   * and the attempt runs 100 ms after the button.
   */
  lemma FirstAttemptConnects(log: seq<string>, p: Probe, b: Binding)
    requires Connects(p)
    ensures var (started, first) := StartConfiguration(log);
      var (a, tries) := Attempts([p], b, started);
      a.connected && tries == 1 && first == After(100)
      && a.log == log + [StartingLine, EnabledLine, "", ""]
  {
  }
}
