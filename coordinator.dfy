/** The update coordinator (LmApiCoordinator): initialises the cloud client
    until that succeeds once, starts the websocket at most once right after,
    pulls the machine status on every pass that gets past initialisation, and
    maps every failure to one of two update errors. */
module Coordinator {
  import opened Values
  import opened Outcomes
  import opened Consts

  /** The two exceptions a pass can raise to the coordinator base class. */
  datatype UpdateError = ConfigEntryAuthFailed | UpdateFailed

  /** A pass either returns the client object or raises. */
  datatype PassResult = ReturnedLm | Raised(error: UpdateError)

  /** What the external calls of one pass do: `init` is the outcome
      `hass_init` would have if it is called, `pull` that of
      `update_local_machine_status`. */
  datatype Pass = Pass(init: Outcome, pull: Outcome)

  /** The coordinator's fields, with a counter for each external call it
      makes or task it schedules. */
  datatype CoordState = CoordState(
    useWebsocket: bool,
    initialized: bool,
    initCalls: nat,
    websocketTasks: nat,
    statusPulls: nat)

  datatype Step = Step(next: CoordState, result: PassResult)

  /** `options.get(CONF_USE_WEBSOCKET, False)`. */
  function UseWebsocket(options: map<string, bool>): (b: bool)
    ensures CONF_USE_WEBSOCKET !in options ==> !b
    ensures CONF_USE_WEBSOCKET in options ==> b == options[CONF_USE_WEBSOCKET]
  {
    OptionOr(options, CONF_USE_WEBSOCKET, false)
  }

  /** A freshly constructed coordinator. */
  function Initial(options: map<string, bool>): (s: CoordState)
    ensures !s.initialized && s.useWebsocket == UseWebsocket(options)
    ensures s.initCalls == 0 && s.websocketTasks == 0 && s.statusPulls == 0
  {
    CoordState(UseWebsocket(options), false, 0, 0, 0)
  }

  /** The except clauses of `_async_update_data`. */
  function MapError(o: Outcome): (e: UpdateError)
    requires o != Ok
    ensures e == ConfigEntryAuthFailed <==> o == AuthFail
    ensures e == UpdateFailed <==> o != AuthFail
  {
    if o == AuthFail then ConfigEntryAuthFailed else UpdateFailed
  }

  /** The status pull that ends every pass past initialisation: it is
      counted, nothing else changes, and the pass returns the client iff the
      pull succeeded. */
  function Pull(s: CoordState, o: Outcome): (r: Step)
    ensures r.next.statusPulls == s.statusPulls + 1
    ensures r.next.initialized == s.initialized && r.next.initCalls == s.initCalls
    ensures r.next.websocketTasks == s.websocketTasks && r.next.useWebsocket == s.useWebsocket
    ensures r.result == ReturnedLm <==> o == Ok
    ensures r.result == Raised(ConfigEntryAuthFailed) <==> o == AuthFail
  {
    var s' := s.(statusPulls := s.statusPulls + 1);
    if o == Ok then Step(s', ReturnedLm) else Step(s', Raised(MapError(o)))
  }

  /** One run of `_async_update_data`. */
  function UpdateData(s: CoordState, p: Pass): (r: Step)
    ensures r.next.useWebsocket == s.useWebsocket
    // hass_init is called exactly on the passes that find the flag false
    ensures r.next.initCalls == s.initCalls + (if s.initialized then 0 else 1)
    // the flag becomes true exactly when hass_init succeeds, and never reverts
    ensures r.next.initialized <==> s.initialized || p.init == Ok
    // the websocket task is created only on the pass whose hass_init succeeds
    ensures r.next.websocketTasks ==
              s.websocketTasks + (if !s.initialized && p.init == Ok && s.useWebsocket then 1 else 0)
    // every pass that gets past initialisation pulls the status, the first included
    ensures r.next.statusPulls ==
              s.statusPulls + (if r.next.initialized then 1 else 0)
    ensures r.result == ReturnedLm <==> r.next.initialized && p.pull == Ok
    ensures r.result == Raised(ConfigEntryAuthFailed) <==>
              (if s.initialized then p.pull == AuthFail
               else p.init == AuthFail || (p.init == Ok && p.pull == AuthFail))
  {
    if !s.initialized then
      var called := s.(initCalls := s.initCalls + 1);
      if p.init != Ok then
        Step(called, Raised(MapError(p.init)))
      else
        var started := called.(initialized := true,
                               websocketTasks := if s.useWebsocket then s.websocketTasks + 1
                                                 else s.websocketTasks);
        Pull(started, p.pull)
    else
      Pull(s, p.pull)
  }

  /** The state after a sequence of passes. */
  function Run(s: CoordState, ps: seq<Pass>): CoordState
    decreases |ps|
  {
    if |ps| == 0 then s else Run(UpdateData(s, ps[0]).next, ps[1..])
  }

  /** What every reachable coordinator satisfies. */
  ghost predicate Consistent(s: CoordState)
  {
    && s.websocketTasks == (if s.initialized && s.useWebsocket then 1 else 0)
    && (s.initialized ==> s.initCalls >= 1)
    && (!s.initialized ==> s.statusPulls == 0)
  }

  /** How many times hass_init is called over `ps` from an uninitialised
      coordinator: once per pass up to and including the first success. */
  function InitAttempts(ps: seq<Pass>): (n: nat)
    ensures n <= |ps|
    ensures forall i :: 0 <= i < n - 1 ==> ps[i].init != Ok
    ensures n < |ps| ==> 0 < n && ps[n - 1].init == Ok
  {
    if |ps| == 0 then 0
    else if ps[0].init == Ok then 1
    else 1 + InitAttempts(ps[1..])
  }

  lemma {:induction false} RunConsistent(s: CoordState, ps: seq<Pass>)
    requires Consistent(s)
    ensures Consistent(Run(s, ps))
    ensures Run(s, ps).useWebsocket == s.useWebsocket
    decreases |ps|
  {
    if |ps| > 0 {
      RunConsistent(UpdateData(s, ps[0]).next, ps[1..]);
    }
  }

  /** Over any sequence of passes the websocket is scheduled at most once,
      and only when the option enables it. */
  lemma WebsocketAtMostOnce(options: map<string, bool>, ps: seq<Pass>)
    ensures Run(Initial(options), ps).websocketTasks <= 1
    ensures Run(Initial(options), ps).websocketTasks == 1 ==>
              UseWebsocket(options) && Run(Initial(options), ps).initialized
  {
    RunConsistent(Initial(options), ps);
  }

  /** Once initialised, the flag stays true, hass_init is never called again
      and no further websocket task is created; every pass pulls the status. */
  lemma {:induction false} InitializedIsPermanent(s: CoordState, ps: seq<Pass>)
    requires s.initialized
    ensures Run(s, ps).initialized
    ensures Run(s, ps).initCalls == s.initCalls
    ensures Run(s, ps).websocketTasks == s.websocketTasks
    ensures Run(s, ps).statusPulls == s.statusPulls + |ps|
    decreases |ps|
  {
    if |ps| > 0 {
      InitializedIsPermanent(UpdateData(s, ps[0]).next, ps[1..]);
    }
  }

  /** From an uninitialised state, initialisation is retried on every pass
      until it first succeeds and never after; the status is pulled on every
      pass from that one on. */
  lemma {:induction false} InitRetriedUntilSuccess(s: CoordState, ps: seq<Pass>)
    requires !s.initialized
    ensures Run(s, ps).initialized <==> exists i :: 0 <= i < |ps| && ps[i].init == Ok
    ensures Run(s, ps).initCalls == s.initCalls + InitAttempts(ps)
    ensures Run(s, ps).statusPulls ==
              s.statusPulls + (if Run(s, ps).initialized then |ps| - InitAttempts(ps) + 1 else 0)
    decreases |ps|
  {
    if |ps| > 0 {
      var next := UpdateData(s, ps[0]).next;
      if ps[0].init == Ok {
        InitializedIsPermanent(next, ps[1..]);
      } else {
        InitRetriedUntilSuccess(next, ps[1..]);
        if Run(next, ps[1..]).initialized {
          var i :| 0 <= i < |ps[1..]| && ps[1..][i].init == Ok;
          assert ps[i + 1].init == Ok;
        } else {
          forall i | 0 <= i < |ps| ensures ps[i].init != Ok {
            if i > 0 { assert ps[1..][i - 1] == ps[i]; }
          }
        }
      }
    }
  }

  /** The client object the coordinator wraps; only the field the
      websocket callback writes is modelled. */
  class LmClient {
    var brewActive: Value

    constructor (brewActive: Value)
      ensures this.brewActive == brewActive
    {
      this.brewActive := brewActive;
    }
  }

  class LmApiCoordinator {
    const lm: LmClient
    const useWebsocket: bool
    var initialized: bool
    var initCalls: nat
    var websocketTasks: nat
    var statusPulls: nat
    /** The value last passed to async_set_updated_data, null if none was. */
    var pushedData: LmClient?

    function State(): CoordState
      reads this
    {
      CoordState(useWebsocket, initialized, initCalls, websocketTasks, statusPulls)
    }

    ghost predicate Valid()
      reads this
    {
      Consistent(State())
    }

    constructor (options: map<string, bool>, lm: LmClient)
      ensures State() == Initial(options) && Valid()
      ensures this.lm == lm && pushedData == null
    {
      this.lm := lm;
      initialized := false;
      useWebsocket := OptionOr(options, CONF_USE_WEBSOCKET, false);
      initCalls, websocketTasks, statusPulls := 0, 0, 0;
      pushedData := null;
    }

    /** `_async_update_data`: returns the client (`data == lm`) or raises. */
    method AsyncUpdateData(p: Pass) returns (r: PassResult, data: LmClient?)
      requires Valid()
      modifies this
      ensures Valid()
      ensures State() == UpdateData(old(State()), p).next
      ensures r == UpdateData(old(State()), p).result
      ensures r == ReturnedLm ==> data == lm
      ensures r.Raised? ==> data == null
      ensures pushedData == old(pushedData)
    {
      data := null;
      if !initialized {
        initCalls := initCalls + 1;
        if p.init != Ok {
          r := Raised(MapError(p.init));
          return;
        }
        initialized := true;
        if useWebsocket {
          websocketTasks := websocketTasks + 1;
        }
      }
      statusPulls := statusPulls + 1;
      if p.pull != Ok {
        r := Raised(MapError(p.pull));
        return;
      }
      r, data := ReturnedLm, lm;
    }

    /** `_on_data_received`: copies the pushed brew-active value into the
        client and publishes the client; a message without the key raises
        KeyError (`ok` false) before anything changes. */
    method OnDataReceived(status: Status) returns (ok: bool)
      modifies lm, this`pushedData
      ensures ok <==> BREW_ACTIVE in status
      ensures ok ==> lm.brewActive == status[BREW_ACTIVE] && pushedData == lm
      ensures !ok ==> lm.brewActive == old(lm.brewActive) && pushedData == old(pushedData)
      ensures State() == old(State())
    {
      if BREW_ACTIVE !in status {
        return false;
      }
      lm.brewActive := status[BREW_ACTIVE];
      pushedData := lm;
      ok := true;
    }
  }
}
