/**
 * The application state store: a fixed set of keys, each set only when the
 * value really changes, with every subscriber told about each change in
 * subscription order. Subscribers are identified by a number; the calls made
 * to them are recorded in a log, and since the store catches whatever a
 * subscriber raises, every call in a broadcast is made.
 */
module State {
  import opened ConfigStore

  /** A subscriber callback, compared by identity. */
  type Callback = nat

  /** One call `callback(key, value)`. */
  datatype Notification = Notification(callback: Callback, key: string, value: Value)

  /** The state a new store starts with. */
  function InitialState(): map<string, Value>
  {
    map[
      "deaths" := Int(0), "elapsed" := Int(0), "is_running" := Bool(false),
      "boss_mode" := Bool(false), "boss_deaths" := Int(0), "boss_paused" := Bool(false),
      "connected" := Bool(false), "can_edit" := Bool(false), "detection_enabled" := Bool(true),
      "profile" := Null, "profile_display_name" := Null
    ]
  }

  /** The calls one change makes: each subscriber once, in order. */
  function Broadcast(subscribers: seq<Callback>, key: string, value: Value): (log: seq<Notification>)
    ensures |log| == |subscribers|
    ensures forall i :: 0 <= i < |log| ==> log[i] == Notification(subscribers[i], key, value)
  {
    seq(|subscribers|, i requires 0 <= i < |subscribers| => Notification(subscribers[i], key, value))
  }

  /** `set` changes something: the key exists and the value differs under Python `==`. */
  predicate Changes(state: map<string, Value>, key: string, value: Value)
  {
    key in state && !PyEq(state[key], value)
  }

  /** The state after `set(key, value)`. */
  function SetStep(state: map<string, Value>, key: string, value: Value): (r: map<string, Value>)
    ensures r.Keys == state.Keys
    ensures key in state ==> PyEq(r[key], value)
    ensures forall k :: k in state && k != key ==> r[k] == state[k]
  {
    PyEqIsEquivalence(value, value, value);
    if Changes(state, key, value) then state[key := value] else state
  }

  /** `list.remove(x)`: the first occurrence goes, or nothing when there is none. */
  function RemoveFirst(s: seq<Callback>, x: Callback): (r: seq<Callback>)
    ensures x !in s ==> r == s
  {
    if s == [] then []
    else if s[0] == x then s[1..]
    else [s[0]] + RemoveFirst(s[1..], x)
  }

  /** The position of the first occurrence of `x`. */
  function FirstPos(s: seq<Callback>, x: Callback): (i: nat)
    requires x in s
    ensures i < |s| && s[i] == x && x !in s[..i]
  {
    if s[0] == x then 0 else 1 + FirstPos(s[1..], x)
  }

  /** Removing drops exactly the first occurrence and keeps the order of the rest. */
  lemma {:induction false} RemoveFirstAt(s: seq<Callback>, x: Callback)
    requires x in s
    ensures RemoveFirst(s, x) == s[..FirstPos(s, x)] + s[FirstPos(s, x) + 1..]
  {
    if s[0] != x {
      RemoveFirstAt(s[1..], x);
      var i, j := FirstPos(s, x), FirstPos(s[1..], x);
      assert i == j + 1;
      assert s[..i] == [s[0]] + s[1..][..j];
      assert s[i + 1..] == s[1..][j + 1..];
    }
  }

  /** Removing takes one copy of `x` out of the subscriber list and nothing else. */
  lemma RemoveFirstCount(s: seq<Callback>, x: Callback)
    requires x in s
    ensures multiset(RemoveFirst(s, x)) == multiset(s) - multiset{x}
  {
    RemoveFirstAt(s, x);
    var i := FirstPos(s, x);
    var before, after := s[..i], s[i + 1..];
    assert s == before + [x] + after;
    assert multiset(s) == multiset(before) + multiset{x} + multiset(after);
    assert multiset(RemoveFirst(s, x)) == multiset(before) + multiset(after);
  }

  /** The fixed rename map from the server's message keys to the store's keys, in its iteration order. */
  const ServerRenames: seq<(string, string)> := [
    ("deaths", "deaths"), ("elapsed", "elapsed"), ("isRunning", "is_running"),
    ("bossFightMode", "boss_mode"), ("bossDeaths", "boss_deaths"), ("bossPaused", "boss_paused"),
    ("canEdit", "can_edit"), ("profileName", "profile"), ("displayName", "profile_display_name")
  ]

  /** `update_from_server` as a sequence of `set` calls: the new state and the calls made. */
  function Replay(state: map<string, Value>, subscribers: seq<Callback>, data: map<string, Value>,
                  renames: seq<(string, string)>): (r: (map<string, Value>, seq<Notification>))
    ensures r.0.Keys == state.Keys
    decreases |renames|
  {
    if renames == [] then (state, [])
    else
      var (server, local) := renames[0];
      var changed := server in data && Changes(state, local, data[server]);
      var next := if changed then state[local := data[server]] else state;
      var rest := Replay(next, subscribers, data, renames[1..]);
      ((rest.0), (if changed then Broadcast(subscribers, local, data[server]) else []) + rest.1)
  }

  /** A key no rename targets keeps its value. */
  lemma {:induction false} ReplayLeavesOthers(state: map<string, Value>, subscribers: seq<Callback>,
                                              data: map<string, Value>, renames: seq<(string, string)>, k: string)
    ensures k in state && (forall i :: 0 <= i < |renames| ==> renames[i].1 != k) ==>
              Replay(state, subscribers, data, renames).0[k] == state[k]
    decreases |renames|
  {
    if renames != [] {
      var (server, local) := renames[0];
      var changed := server in data && Changes(state, local, data[server]);
      var next := if changed then state[local := data[server]] else state;
      ReplayLeavesOthers(next, subscribers, data, renames[1..], k);
      if k in state && (forall i :: 0 <= i < |renames| ==> renames[i].1 != k) {
        assert forall i :: 0 <= i < |renames[1..]| ==> renames[1..][i].1 == renames[i + 1].1;
      }
    }
  }

  /** The store's keys a list of renames writes to, each at most once. */
  predicate DistinctTargets(renames: seq<(string, string)>)
  {
    forall i, j :: 0 <= i < j < |renames| ==> renames[i].1 != renames[j].1
  }

  /** Every renamed key present in the message ends up equal (under Python `==`) to the message's value. */
  lemma {:induction false} ReplayStores(state: map<string, Value>, subscribers: seq<Callback>,
                                        data: map<string, Value>, renames: seq<(string, string)>, i: int)
    requires DistinctTargets(renames)
    requires 0 <= i < |renames| && renames[i].0 in data && renames[i].1 in state
    ensures PyEq(Replay(state, subscribers, data, renames).0[renames[i].1], data[renames[i].0])
    decreases |renames|
  {
    ReplayLeavesOthers(state, subscribers, data, renames, renames[i].1);
    var (server, local) := renames[0];
    var changed := server in data && Changes(state, local, data[server]);
    var next := if changed then state[local := data[server]] else state;
    if i == 0 {
      var after := SetStep(state, local, data[server]);
      assert next == after;
      ReplayLeavesOthers(next, subscribers, data, renames[1..], local);
    } else {
      assert renames[1..][i - 1] == renames[i];
      ReplayLeavesOthers(next, subscribers, data, renames[1..], local);
      ReplayStores(next, subscribers, data, renames[1..], i - 1);
    }
  }

  /** The store's keys the server message can write. */
  lemma ServerTargets()
    ensures forall i :: 0 <= i < |ServerRenames| ==>
      ServerRenames[i].1 in {"deaths", "elapsed", "is_running", "boss_mode", "boss_deaths", "boss_paused",
                             "can_edit", "profile", "profile_display_name"}
  {
  }

  /** No two renames write the same store key. */
  lemma ServerTargetsDistinct()
    ensures DistinctTargets(ServerRenames)
  {
  }

  /** The server message never touches the connection flag or the detection switch. */
  lemma ServerKeepsLocalFlags(state: map<string, Value>, subscribers: seq<Callback>, data: map<string, Value>)
    requires "connected" in state && "detection_enabled" in state
    ensures Replay(state, subscribers, data, ServerRenames).0["connected"] == state["connected"]
    ensures Replay(state, subscribers, data, ServerRenames).0["detection_enabled"] == state["detection_enabled"]
  {
    LocalFlagsNotTargets();
    ReplayLeavesOthers(state, subscribers, data, ServerRenames, "connected");
    ReplayLeavesOthers(state, subscribers, data, ServerRenames, "detection_enabled");
  }

  /** No rename targets the connection flag or the detection switch. */
  lemma LocalFlagsNotTargets()
    ensures forall i :: 0 <= i < |ServerRenames| ==> ServerRenames[i].1 != "connected"
    ensures forall i :: 0 <= i < |ServerRenames| ==> ServerRenames[i].1 != "detection_enabled"
  {
    ServerTargets();
    assert "connected" !in {"deaths", "elapsed", "is_running", "boss_mode", "boss_deaths", "boss_paused",
                            "can_edit", "profile", "profile_display_name"};
    assert "detection_enabled" !in {"deaths", "elapsed", "is_running", "boss_mode", "boss_deaths", "boss_paused",
                                    "can_edit", "profile", "profile_display_name"};
  }

  /** The server's `isRunning` and `bossFightMode` land in `is_running` and `boss_mode`. */
  lemma ServerRenamesApply(state: map<string, Value>, subscribers: seq<Callback>, data: map<string, Value>)
    requires "is_running" in state && "boss_mode" in state
    ensures "isRunning" in data ==> PyEq(Replay(state, subscribers, data, ServerRenames).0["is_running"], data["isRunning"])
    ensures "bossFightMode" in data ==> PyEq(Replay(state, subscribers, data, ServerRenames).0["boss_mode"], data["bossFightMode"])
  {
    ServerTargetsDistinct();
    if "isRunning" in data {
      ReplayStores(state, subscribers, data, ServerRenames, 2);
    }
    if "bossFightMode" in data {
      ReplayStores(state, subscribers, data, ServerRenames, 3);
    }
  }

  class StateManager {
    var state: map<string, Value>
    var subscribers: seq<Callback>
    /** The subscriber calls made so far, oldest first. */
    var notifications: seq<Notification>

    constructor()
      ensures state == InitialState() && subscribers == [] && notifications == []
    {
      state := InitialState();
      subscribers := [];
      notifications := [];
    }

    /** `get(key, default)` */
    function Get(key: string, default: Value): (r: Value)
      reads this
      ensures key !in state ==> r == default
      ensures key in state ==> r == state[key]
    {
      if key in state then state[key] else default
    }

    /** `_notify`: every subscriber is called once, in subscription order. */
    method Notify(key: string, value: Value)
      modifies this
      ensures notifications == old(notifications) + Broadcast(subscribers, key, value)
      ensures state == old(state) && subscribers == old(subscribers)
    {
      var i := 0;
      while i < |subscribers|
        invariant 0 <= i <= |subscribers|
        invariant notifications == old(notifications) + Broadcast(subscribers[..i], key, value)
        invariant state == old(state) && subscribers == old(subscribers)
      {
        assert Broadcast(subscribers[..i + 1], key, value) == Broadcast(subscribers[..i], key, value) + [Notification(subscribers[i], key, value)];
        notifications := notifications + [Notification(subscribers[i], key, value)];
        i := i + 1;
      }
      assert subscribers[..i] == subscribers;
    }

    /**
     * `set(key, value)`: an unknown key or an equal value changes nothing and
     * calls nobody; otherwise the value is stored and every subscriber called.
     */
    method Set(key: string, value: Value)
      modifies this
      ensures state == SetStep(old(state), key, value)
      ensures notifications == old(notifications) +
        (if Changes(old(state), key, value) then Broadcast(subscribers, key, value) else [])
      ensures subscribers == old(subscribers)
    {
      if key in state {
        var oldValue := state[key];
        if !PyEq(oldValue, value) {
          state := state[key := value];
          Notify(key, value);
        }
      }
    }

    /** `subscribe`: the callback goes last. */
    method Subscribe(callback: Callback)
      modifies this
      ensures subscribers == old(subscribers) + [callback]
      ensures state == old(state) && notifications == old(notifications)
    {
      subscribers := subscribers + [callback];
    }

    /** `unsubscribe`: the first occurrence goes, if there is one. */
    method Unsubscribe(callback: Callback)
      modifies this
      ensures subscribers == RemoveFirst(old(subscribers), callback)
      ensures state == old(state) && notifications == old(notifications)
    {
      if callback in subscribers {
        subscribers := RemoveFirst(subscribers, callback);
      }
    }

    /** `update_from_server`: one `set` per renamed key present in the message, in the map's order. */
    method UpdateFromServer(data: map<string, Value>)
      modifies this
      ensures state == Replay(old(state), subscribers, data, ServerRenames).0
      ensures notifications == old(notifications) + Replay(old(state), subscribers, data, ServerRenames).1
      ensures subscribers == old(subscribers)
    {
      ApplyRenames(data, ServerRenames);
    }

    /** The loop of `update_from_server` over a rename list. */
    method ApplyRenames(data: map<string, Value>, renames: seq<(string, string)>)
      modifies this
      ensures state == Replay(old(state), subscribers, data, renames).0
      ensures notifications == old(notifications) + Replay(old(state), subscribers, data, renames).1
      ensures subscribers == old(subscribers)
    {
      var i := 0;
      while i < |renames|
        invariant 0 <= i <= |renames|
        invariant subscribers == old(subscribers)
        invariant Replay(old(state), subscribers, data, renames).0 == Replay(state, subscribers, data, renames[i..]).0
        invariant old(notifications) + Replay(old(state), subscribers, data, renames).1 ==
                  notifications + Replay(state, subscribers, data, renames[i..]).1
      {
        var (server, local) := renames[i];
        assert renames[i..][1..] == renames[i + 1..];
        if server in data {
          Set(local, data[server]);
        }
        i := i + 1;
      }
    }
  }
}
