/** The NetworkTables front end of the dashboard (`NTInterface`): a registry of listeners
    keyed by path under the SmartDashboard table, the rule that turns a change
    notification into one listener call, the connection attempt with its bounded wait,
    the connection status, and the lazily obtained autonomous sub-table.

    The NetworkTables library is an oracle: the connected flag it reports at each poll
    is given as a sequence of booleans, a name lookup as the list of addresses it
    resolved, and tables as handles named by their path. */
module NTFrontEnd {
  import opened Common
  import opened Commands

  /** Name of the autonomous sub-table inside SmartDashboard. */
  const AutoTableLoc: string := "autonomous"
  /** The top-level table the dashboard works in. */
  const SmartDashboardName: string := "SmartDashboard"
  /** The NetworkTables port the client is configured with. */
  const NetworkTablesPort: int := 1735
  /** The connection wait polls at most this many times, one second apart. */
  const MaxPolls: nat := 10

  /** An `Action<Value>` delegate stored in the listener registry. */
  datatype Callback = Callback(id: nat)

  /** The action delegate of the connect command (`OnConnectClick`). */
  datatype ConnectAction = OnConnectClickAction
  /** The determiner delegate of the connect command (`() => !IsConnecting`). */
  datatype ConnectDeterminer = NotConnecting

  /** `AddressFamily` of a resolved address; only `InterNetwork` (IPv4) matters. */
  datatype AddressFamily = InterNetwork | InterNetworkV6 | OtherFamily
  /** A resolved address: its family and its textual form. */
  datatype IPAddress = IPAddress(family: AddressFamily, text: string)

  /** What one change notification leads to: nothing, one call of the listener
      registered under `key`, or the indexer failing because `key` is not registered. */
  datatype Dispatch = NoListener | Call(key: string, callback: Callback) | KeyNotFound(key: string)

  /** The registry key of `key` inside the autonomous table: `"autonomous/" + key`. */
  function AutonomousKey(key: string): (r: string)
    ensures |r| == |AutoTableLoc| + 1 + |key|
    ensures r[..|AutoTableLoc| + 1] == "autonomous/"
    ensures r[|AutoTableLoc| + 1..] == key
  {
    AutoTableLoc + "/" + key
  }

  /** Distinct keys of the autonomous table get distinct registry keys. */
  lemma AutonomousKeyInjective(a: string, b: string)
    requires AutonomousKey(a) == AutonomousKey(b)
    ensures a == b
  {
    assert a == AutonomousKey(a)[|AutoTableLoc| + 1..];
  }

  /** The dispatch rule for a notification of `key`, where `fromAutonomous` says whether
      the notifying table is the autonomous table: the membership test uses the bare
      key, the call uses the prefixed key when the table is the autonomous one. */
  function Route(listeners: map<string, Callback>, fromAutonomous: bool, key: string): (d: Dispatch)
    ensures d == NoListener <==> key !in listeners
    ensures d != NoListener ==> d.key == (if fromAutonomous then AutonomousKey(key) else key)
    ensures d.Call? ==> d.key in listeners && d.callback == listeners[d.key]
    ensures d.KeyNotFound? ==> d.key !in listeners
  {
    if key !in listeners then NoListener
    else
      var target := if fromAutonomous then AutonomousKey(key) else key;
      if target in listeners then Call(target, listeners[target]) else KeyNotFound(target)
  }

  /** A change outside the autonomous table of a registered key calls exactly that
      key's listener. */
  lemma RoutePlainKey(listeners: map<string, Callback>, key: string)
    requires key in listeners
    ensures Route(listeners, false, key) == Call(key, listeners[key])
  {
  }

  /** A change in the autonomous table reaches a listener registered with
      `AddAutonomousKeyListener(key, f)` only when the bare `key` is registered as well:
      otherwise the membership test on the bare key drops it. */
  lemma AutonomousListenerNeedsBareKey(listeners: map<string, Callback>, key: string)
    requires AutonomousKey(key) in listeners
    ensures Route(listeners, true, key) == (if key in listeners then Call(AutonomousKey(key), listeners[AutonomousKey(key)]) else NoListener)
  {
  }

  /** The text of the last IPv4 address in `addresses`, if there is one. */
  function LastIPv4(addresses: seq<IPAddress>): (r: Option<string>)
    ensures r == None <==> forall i :: 0 <= i < |addresses| ==> addresses[i].family != InterNetwork
    ensures r != None ==>
      exists i :: (0 <= i < |addresses| && addresses[i].family == InterNetwork
        && addresses[i].text == r.value
        && forall j :: i < j < |addresses| ==> addresses[j].family != InterNetwork)
  {
    if addresses == [] then None
    else
      var last := addresses[|addresses| - 1];
      if last.family == InterNetwork then Some(last.text)
      else LastIPv4(addresses[..|addresses| - 1])
  }

  /** `GetIPV4FromMDNS`: the textual form of the last IPv4 address among those the name
      resolved to, or the name itself when none of them is IPv4. */
  method GetIPV4FromMDNS(mdnsAddress: string, addresses: seq<IPAddress>) returns (goodAddress: string)
    ensures goodAddress == match LastIPv4(addresses) case None => mdnsAddress case Some(a) => a
  {
    goodAddress := mdnsAddress;
    for n := 0 to |addresses|
      invariant goodAddress == match LastIPv4(addresses[..n]) case None => mdnsAddress case Some(a) => a
    {
      assert addresses[..n + 1][..n] == addresses[..n];
      if addresses[n].family == InterNetwork {
        goodAddress := addresses[n].text;
      }
    }
    assert addresses[..|addresses|] == addresses;
  }

  /** How many one-second polls the connection wait makes when the library reports
      `polls[i]` at poll `i`: up to and including the first that reports connected, and
      all of them when none does. */
  function PollsTaken(polls: seq<bool>): (n: nat)
    ensures 1 <= n <= |polls| || (polls == [] && n == 0)
    ensures forall i :: 0 <= i < n - 1 ==> !polls[i]
    ensures n < |polls| ==> polls[n - 1]
    ensures 0 < n && polls[n - 1] <==> true in polls
  {
    if polls == [] then 0
    else if polls[0] then 1
    else 1 + PollsTaken(polls[1..])
  }

  class NTInterface {
    /** `ConnectedAddress`: the address of the last attempt, as typed. */
    var connectedAddress: string
    /** `IsConnecting`: a connection attempt is in progress. */
    var isConnecting: bool
    /** `_SmartDashboard`: None until the first attempt obtains the table. */
    var smartDashboard: Option<Table>
    /** The connected flag of that table as the library last reported it. */
    var linkUp: bool
    /** `_AutonomousTable`: the memoised autonomous sub-table. */
    var autonomousTable: Option<Table>
    /** `ListenerFunctions`: registry key to listener. */
    var listenerFunctions: map<string, Callback>
    /** Listener calls made so far, in order, with the value each received. */
    var invocations: seq<(Callback, Value)>
    /** Values `ConnectionEvent` was raised with, in order. The trace records every raise
        attempt; `?.Invoke` reaches nobody when no handler is attached, and handlers are
        not modelled. */
    var connectionEvents: seq<bool>
    /** Library configuration: port, address and whether the client is running. */
    var clientPort: int
    var clientAddress: string
    var clientRunning: bool
    /** One-second delays awaited by connection attempts so far (the clock). */
    var secondsWaited: nat
    /** `OnConnect`: the connect button's command. */
    const onConnect: RelayCommand<ConnectAction, ConnectDeterminer, string>

    /** The wiring the constructor sets up and every operation keeps: the connect
        command runs `OnConnectClick` and is gated by `!IsConnecting`; the handles are
        the SmartDashboard table and its autonomous sub-table; `ConnectionEvent` has
        only ever been raised with true. */
    ghost predicate Valid()
      reads this, onConnect
    {
      && onConnect.functionToExecute == Some(OnConnectClickAction)
      && onConnect.canExecuteDeterminer == Some(NotConnecting)
      && (smartDashboard != None ==> smartDashboard.value == GetTable(SmartDashboardName))
      && (autonomousTable != None ==>
            smartDashboard != None && autonomousTable.value == GetSubTable(smartDashboard.value, AutoTableLoc))
      && (forall i :: 0 <= i < |connectionEvents| ==> connectionEvents[i])
    }

    constructor ()
      ensures Valid() && fresh(onConnect)
      ensures !isConnecting && smartDashboard == None && autonomousTable == None
      ensures listenerFunctions == map[] && invocations == [] && connectionEvents == []
      ensures !clientRunning && secondsWaited == 0
      ensures onConnect.subscribers == 0 && onConnect.notifications == 0
    {
      var command := new RelayCommand<ConnectAction, ConnectDeterminer, string>();
      command.functionToExecute := Some(OnConnectClickAction);
      command.canExecuteDeterminer := Some(NotConnecting);
      onConnect := command;
      connectedAddress := "";
      isConnecting := false;
      smartDashboard := None;
      linkUp := false;
      autonomousTable := None;
      listenerFunctions := map[];
      invocations := [];
      connectionEvents := [];
      clientPort := 0;
      clientAddress := "";
      clientRunning := false;
      secondsWaited := 0;
    }

    /** `IsConnected`: there is a SmartDashboard table and the library reports it
        connected. */
    function IsConnected(): (r: bool)
      reads this
      ensures smartDashboard == None ==> !r
      ensures smartDashboard != None ==> (r <==> linkUp)
    {
      smartDashboard != None && linkUp
    }

    /** The library reports a change of the link (a connection made or dropped) outside
        an attempt: `IsConnected` follows it as long as a SmartDashboard table exists. */
    method LinkReported(up: bool)
      requires Valid()
      modifies this`linkUp
      ensures Valid() && linkUp == up
      ensures IsConnected() <==> smartDashboard != None && up
    {
      linkUp := up;
    }

    /** `StatusMessage`: CONNECTED while connected, CONNECTING while an attempt runs and
        the client is not connected, OFFLINE otherwise. */
    function StatusMessage(): (r: string)
      reads this
      ensures r == "CONNECTED" <==> IsConnected()
      ensures r == "CONNECTING" <==> !IsConnected() && isConnecting
      ensures r == "OFFLINE" <==> !IsConnected() && !isConnecting
    {
      if IsConnected() then "CONNECTED"
      else if isConnecting then "CONNECTING"
      else "OFFLINE"
    }

    /** `OnConnect.CanExecute(parameter)`, with the determiner evaluated in the current
        state: the connect button is enabled exactly when no attempt is in progress. */
    function ConnectCanExecute(parameter: string): (r: bool)
      reads this, onConnect
      requires Valid()
      ensures r <==> !isConnecting
    {
      var connecting := isConnecting;
      onConnect.CanExecute(parameter, (d: ConnectDeterminer) => !connecting)
    }

    /** The `AutonomousTable` getter: obtains the sub-table the first time it is asked
        for while connected, and from then on always returns that same handle. */
    method GetAutonomousTable() returns (t: Option<Table>)
      requires Valid()
      modifies this`autonomousTable
      ensures Valid()
      ensures t == autonomousTable
      ensures old(autonomousTable) != None ==> autonomousTable == old(autonomousTable)
      ensures old(autonomousTable) == None ==>
        autonomousTable == if IsConnected() then Some(GetSubTable(smartDashboard.value, AutoTableLoc)) else None
    {
      if autonomousTable == None && IsConnected() {
        autonomousTable := Some(GetSubTable(smartDashboard.value, AutoTableLoc));
      }
      t := autonomousTable;
    }

    /** `AddSmartDashboardKeyListener(key, f)`: `Dictionary.Add` throws for a key that is
        already registered, so callers must not register a key twice. The registry
        gains exactly the entry `key -> f`. */
    method AddSmartDashboardKeyListener(key: string, functionToExecute: Callback)
      requires Valid()
      requires key !in listenerFunctions
      modifies this`listenerFunctions
      ensures Valid()
      ensures listenerFunctions.Keys == old(listenerFunctions).Keys + {key}
      ensures listenerFunctions[key] == functionToExecute
      ensures forall k :: k in old(listenerFunctions) ==> listenerFunctions[k] == old(listenerFunctions)[k]
    {
      listenerFunctions := listenerFunctions[key := functionToExecute];
    }

    /** `AddAutonomousKeyListener(key, f)`: registers `f` under `"autonomous/" + key`. */
    method AddAutonomousKeyListener(key: string, functionToExecute: Callback)
      requires Valid()
      requires AutonomousKey(key) !in listenerFunctions
      modifies this`listenerFunctions
      ensures Valid()
      ensures listenerFunctions == old(listenerFunctions)[AutonomousKey(key) := functionToExecute]
    {
      AddSmartDashboardKeyListener(AutonomousKey(key), functionToExecute);
    }

    /** `NTValueChanged(key, value)`: calls the listener under `key` with `value`; the
        dictionary indexer fails when `key` is not registered. */
    method NTValueChanged(key: string, value: Value) returns (d: Dispatch)
      modifies this`invocations
      ensures key in listenerFunctions ==> d == Call(key, listenerFunctions[key])
      ensures key !in listenerFunctions ==> d == KeyNotFound(key)
      ensures invocations == old(invocations) + if d.Call? then [(d.callback, value)] else []
    {
      if key in listenerFunctions {
        d := Call(key, listenerFunctions[key]);
        invocations := invocations + [(listenerFunctions[key], value)];
      } else {
        d := KeyNotFound(key);
      }
    }

    /** `OnTableValuesChanged(table, key, value)`: a change notification from the library.
        Nothing happens for an unregistered key (the autonomous table is not even looked
        at); otherwise the outcome is `Route` of the registry, with the notifying table
        compared against the (possibly just obtained) autonomous table, and a call adds
        exactly one invocation carrying the received value. */
    method OnTableValuesChanged(table: Table, key: string, value: Value) returns (d: Dispatch)
      requires Valid()
      modifies this`autonomousTable, this`invocations
      ensures Valid()
      ensures d == Route(listenerFunctions, autonomousTable == Some(table), key)
      ensures key !in listenerFunctions ==> autonomousTable == old(autonomousTable)
      ensures old(autonomousTable) != None ==> autonomousTable == old(autonomousTable)
      ensures key in listenerFunctions && old(autonomousTable) == None ==>
        autonomousTable == if IsConnected() then Some(GetSubTable(smartDashboard.value, AutoTableLoc)) else None
      ensures invocations == old(invocations) + if d.Call? then [(d.callback, value)] else []
    {
      if key !in listenerFunctions {
        return NoListener;
      }
      var auto := GetAutonomousTable();
      var target := key;
      if auto == Some(table) {
        target := AutonomousKey(key);
      }
      d := NTValueChanged(target, value);
    }

    /** The wait of `ConnectAsync`: one-second polls of the library's connected flag,
        stopping at the first that sees the connection, at most `MaxPolls` of them. */
    method WaitForConnection(polls: seq<bool>)
      requires smartDashboard != None
      requires |polls| == MaxPolls
      modifies this`linkUp, this`secondsWaited
      ensures secondsWaited == old(secondsWaited) + PollsTaken(polls)
      ensures linkUp == polls[PollsTaken(polls) - 1]
    {
      var loop := 0;
      while loop < MaxPolls
        invariant 0 <= loop <= MaxPolls
        invariant secondsWaited == old(secondsWaited) + loop
        invariant forall i :: 0 <= i < loop ==> !polls[i]
        invariant loop > 0 ==> !linkUp
      {
        secondsWaited := secondsWaited + 1;
        linkUp := polls[loop];
        if IsConnected() {
          PollsTakenAt(polls, loop);
          break;
        }
        loop := loop + 1;
      }
      if loop == MaxPolls {
        AllFalsePollsTaken(polls);
      }
    }

    /** The set-up of `ConnectAsync`: the client is configured for the team port and the
        IPv4 address resolved for the connect address, started, and the SmartDashboard
        table is obtained. */
    method StartClient(addresses: seq<IPAddress>)
      requires Valid()
      modifies this`clientPort, this`clientAddress, this`clientRunning, this`smartDashboard
      ensures Valid()
      ensures clientPort == NetworkTablesPort && clientRunning
      ensures clientAddress == match LastIPv4(addresses) case None => connectedAddress case Some(a) => a
      ensures smartDashboard == Some(GetTable(SmartDashboardName))
    {
      clientPort := NetworkTablesPort;
      var goodAddress := GetIPV4FromMDNS(connectedAddress, addresses);
      clientAddress := goodAddress;
      clientRunning := true;
      smartDashboard := Some(GetTable(SmartDashboardName));
    }

    /** `ConnectAsync`: configures and starts the client, obtains the SmartDashboard
        table, then polls once a second, stopping at the first poll that sees the
        connection, for at most `MaxPolls` polls; a client still not connected is shut
        down. The result is the connected state at the end. `polls[i]` is what the
        library reports at poll `i`. It only runs inside an attempt, so `IsConnecting`
        holds throughout. */
    method ConnectAsync(addresses: seq<IPAddress>, polls: seq<bool>) returns (connected: bool)
      requires Valid() && isConnecting
      requires |polls| == MaxPolls
      modifies this`clientPort, this`clientAddress, this`clientRunning, this`smartDashboard,
        this`linkUp, this`secondsWaited
      ensures Valid() && isConnecting
      ensures clientPort == NetworkTablesPort
      ensures clientAddress == match LastIPv4(addresses) case None => connectedAddress case Some(a) => a
      ensures smartDashboard == Some(GetTable(SmartDashboardName))
      ensures secondsWaited == old(secondsWaited) + PollsTaken(polls)
      ensures PollsTaken(polls) <= MaxPolls
      ensures linkUp == polls[PollsTaken(polls) - 1]
      ensures connected == IsConnected()
      ensures connected <==> true in polls
      ensures clientRunning == connected
    {
      StartClient(addresses);
      WaitForConnection(polls);

      if !IsConnected() {
        clientRunning := false;
      }
      connected := IsConnected();
    }

    /** The part of `OnConnectClick` before the wait: the attempt is marked in progress,
        which disables the connect command, and the address is recorded. */
    method BeginConnect(connectAddress: string)
      requires Valid()
      modifies this`isConnecting, this`connectedAddress, onConnect`notifications
      ensures Valid() && isConnecting && !ConnectCanExecute(connectAddress)
      ensures connectedAddress == connectAddress
      ensures onConnect.notifications == old(onConnect.notifications) + if onConnect.subscribers > 0 then 1 else 0
    {
      isConnecting := true;
      onConnect.RaiseCanExecuteChanged();
      connectedAddress := connectAddress;
    }

    /** The part of `OnConnectClick` after the wait: the mark is cleared, re-enabling the
        connect command, and `ConnectionEvent(true)` is raised only when connected. */
    method FinishConnect()
      requires Valid()
      modifies this`isConnecting, this`connectionEvents, onConnect`notifications
      ensures Valid() && !isConnecting
      ensures connectionEvents == old(connectionEvents) + if IsConnected() then [true] else []
      ensures onConnect.notifications == old(onConnect.notifications) + if onConnect.subscribers > 0 then 1 else 0
    {
      isConnecting := false;
      onConnect.RaiseCanExecuteChanged();
      if !IsConnected() {
        return;
      }
      connectionEvents := connectionEvents + [true];
    }

    /** `OnConnectClick(address)`: marks the attempt in progress (disabling the connect
        command), runs the connection wait, clears the mark, and raises
        `ConnectionEvent(true)` only when the client ends up connected. */
    method OnConnectClick(connectAddress: string, addresses: seq<IPAddress>, polls: seq<bool>)
      requires Valid()
      requires |polls| == MaxPolls
      modifies this`isConnecting, this`connectedAddress, this`connectionEvents, this`clientPort,
        this`clientAddress, this`clientRunning, this`smartDashboard, this`linkUp, this`secondsWaited,
        onConnect`notifications
      ensures Valid() && !isConnecting
      ensures connectedAddress == connectAddress
      ensures IsConnected() <==> true in polls
      ensures connectionEvents == old(connectionEvents) + if IsConnected() then [true] else []
      ensures onConnect.notifications == old(onConnect.notifications) + if onConnect.subscribers > 0 then 2 else 0
      ensures clientPort == NetworkTablesPort
      ensures clientAddress == match LastIPv4(addresses) case None => connectAddress case Some(a) => a
      ensures smartDashboard == Some(GetTable(SmartDashboardName))
      ensures clientRunning == IsConnected()
      ensures secondsWaited == old(secondsWaited) + PollsTaken(polls)
      ensures linkUp == polls[PollsTaken(polls) - 1]
    {
      BeginConnect(connectAddress);
      var connected := ConnectAsync(addresses, polls);
      FinishConnect();
    }

    /** The connect button: WPF asks the command whether it can execute and, if so,
        executes it, which runs `OnConnectClick` with the button's parameter. */
    method PressConnect(connectAddress: string, addresses: seq<IPAddress>, polls: seq<bool>)
      returns (ran: bool)
      requires Valid()
      requires |polls| == MaxPolls
      modifies this`isConnecting, this`connectedAddress, this`connectionEvents, this`clientPort,
        this`clientAddress, this`clientRunning, this`smartDashboard, this`linkUp, this`secondsWaited,
        onConnect`notifications
      ensures Valid()
      ensures ran <==> !old(isConnecting)
      ensures !ran ==> unchanged(this) && onConnect.notifications == old(onConnect.notifications)
      ensures ran ==> connectedAddress == connectAddress && !isConnecting
      ensures ran ==> (IsConnected() <==> true in polls)
      ensures ran ==> connectionEvents == old(connectionEvents) + if IsConnected() then [true] else []
      ensures ran ==> onConnect.notifications == old(onConnect.notifications) + if onConnect.subscribers > 0 then 2 else 0
      ensures ran ==> clientPort == NetworkTablesPort
      ensures ran ==> clientAddress == match LastIPv4(addresses) case None => connectAddress case Some(a) => a
      ensures ran ==> smartDashboard == Some(GetTable(SmartDashboardName))
      ensures ran ==> clientRunning == IsConnected()
      ensures ran ==> secondsWaited == old(secondsWaited) + PollsTaken(polls)
      ensures listenerFunctions == old(listenerFunctions)
    {
      ran := ConnectCanExecute(connectAddress);
      if !ran {
        return;
      }
      var call := onConnect.Execute(connectAddress);
      if call != None {
        OnConnectClick(call.value.argument, addresses, polls);
      }
    }
  }

  /** The poll at which the wait stops: `PollsTaken` is one past the first poll that
      reports connected. */
  lemma {:induction false} PollsTakenAt(polls: seq<bool>, k: nat)
    requires k < |polls| && polls[k]
    requires forall i :: 0 <= i < k ==> !polls[i]
    ensures PollsTaken(polls) == k + 1
  {
    if k > 0 {
      PollsTakenAt(polls[1..], k - 1);
    }
  }

  /** When no poll reports connected, the wait makes every poll. */
  lemma {:induction false} AllFalsePollsTaken(polls: seq<bool>)
    requires forall i :: 0 <= i < |polls| ==> !polls[i]
    ensures PollsTaken(polls) == |polls|
  {
    if polls != [] {
      AllFalsePollsTaken(polls[1..]);
    }
  }

  /** Once the autonomous table has been obtained, asking for it again changes nothing
      and returns the same handle. */
  method AutonomousTableIsMemoised(nt: NTInterface) returns (first: Option<Table>, second: Option<Table>)
    requires nt.Valid() && nt.IsConnected()
    modifies nt`autonomousTable
    ensures first != None && first == second
    ensures first == Some(GetSubTable(GetTable(SmartDashboardName), AutoTableLoc))
  {
    first := nt.GetAutonomousTable();
    second := nt.GetAutonomousTable();
  }
}
