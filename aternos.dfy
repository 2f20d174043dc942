/**
 * The python_aternos objects the bot talks to, as an oracle. The library is
 * not part of this model: a server is given the sequence of observations its
 * successive `fetch()` calls will make and which of its successive `start()`
 * and `stop()` calls raise, and it counts the calls the bot makes.
 */
module Aternos {

  import opened Wrappers

  /** The `players_list` attribute: missing (`None`), a list of player names, or some other value. */
  datatype PlayersList = Absent | Names(names: seq<string>) | NotAList

  /** The attributes one successful `fetch()` refreshes. */
  datatype Snapshot = Snapshot(status: string, playersCount: Option<int>, playersList: PlayersList)

  /** What one `fetch()` call does: refresh the attributes, or raise. */
  datatype Observation = Fetched(snap: Snapshot) | Raised

  /** The observation of the `k`-th fetch; a script that has run out behaves as a failing network. */
  function ObsAt(script: seq<Observation>, k: nat): Observation {
    if k < |script| then script[k] else Raised
  }

  /** The `k`-th fetch succeeds and reads `online`. */
  predicate OnlineAt(script: seq<Observation>, k: nat) {
    ObsAt(script, k).Fetched? && ObsAt(script, k).snap.status == "online"
  }

  /** The `k`-th fetch succeeds and reads anything but `online`. */
  predicate WaitingAt(script: seq<Observation>, k: nat) {
    ObsAt(script, k).Fetched? && ObsAt(script, k).snap.status != "online"
  }

  /**
   * Whether the `k`-th call of a scripted action raises; as with fetches, a
   * script that has run out behaves as a failing network.
   */
  predicate RaisesAt(raises: seq<bool>, k: nat) {
    k >= |raises| || raises[k]
  }

  /** An authenticated client; the model keeps only the account it logged in with. */
  datatype Session = Session(username: string)

  /** An Aternos server object, `servers[0]` of an account. */
  class Server {
    const script: seq<Observation>
    const startRaises: seq<bool>
    const stopRaises: seq<bool>
    const address: Option<string>
    var fetches: nat
    var starts: nat
    var stops: nat
    var current: Snapshot

    constructor (script: seq<Observation>, startRaises: seq<bool>, stopRaises: seq<bool>, address: Option<string>)
      ensures this.script == script && this.startRaises == startRaises && this.stopRaises == stopRaises
      ensures this.address == address
      ensures fetches == 0 && starts == 0 && stops == 0
      ensures current == Snapshot("", None, Absent)
    {
      this.script := script;
      this.startRaises := startRaises;
      this.stopRaises := stopRaises;
      this.address := address;
      fetches, starts, stops := 0, 0, 0;
      current := Snapshot("", None, Absent);
    }

    /** `server.fetch()`: `ok` is false when the call raised, and then the attributes keep their values. */
    method Fetch() returns (ok: bool)
      modifies this
      ensures fetches == old(fetches) + 1 && starts == old(starts) && stops == old(stops)
      ensures ok <==> ObsAt(script, old(fetches)).Fetched?
      ensures current == if ok then ObsAt(script, old(fetches)).snap else old(current)
    {
      var obs := ObsAt(script, fetches);
      fetches := fetches + 1;
      ok := obs.Fetched?;
      if ok {
        current := obs.snap;
      }
    }

    /** `server.start()`: `ok` is false when the call raised. */
    method Start() returns (ok: bool)
      modifies this
      ensures starts == old(starts) + 1 && fetches == old(fetches) && stops == old(stops)
      ensures current == old(current)
      ensures ok == !RaisesAt(startRaises, old(starts))
    {
      ok := !RaisesAt(startRaises, starts);
      starts := starts + 1;
    }

    /** `server.stop()`: `ok` is false when the call raised. */
    method Stop() returns (ok: bool)
      modifies this
      ensures stops == old(stops) + 1 && fetches == old(fetches) && starts == old(starts)
      ensures current == old(current)
      ensures ok == !RaisesAt(stopRaises, old(stops))
    {
      ok := !RaisesAt(stopRaises, stops);
      stops := stops + 1;
    }
  }

  /** What `Client().login(...)` followed by `client.account.list_servers()` gives: an exception, or the servers. */
  datatype Login = Refused | Account(servers: seq<Server>)
}
