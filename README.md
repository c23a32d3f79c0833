# Dashboard.net core, modelled in Dafny

Dashboard.net is the WPF driver-station dashboard of an FRC robot. This project models
the parts of it that hold sequential logic:

- the NetworkTables front end `NTInterface` (module `NTFrontEnd`). This covers:
  - the path-keyed listener registry;
  - the rule that turns a `(table, key, value)` change notification into one listener call;
  - the connection status (`IsConnected`, `IsConnecting`, `StatusMessage`) and the gating of the connect command;
  - the bounded connection wait;
  - the lazily obtained autonomous sub-table;
  - the choice of an IPv4 address from a name lookup;
- the command object `RelayCommand` (module `Commands`);
- the autonomous routine selector `AutonomousSelector` (module `AutoSelection`): the
  ordered list of modes, its wholesale replacement from the robot, and the top-three
  selection written back;
- the robot log saver `RobotLogSaver` (module `RobotLogs`): the log file name format,
  the set-once name, and the choice between appending and replacing;
- the checklist editor `ChecklistEditor` (module `ChecklistEditing`): the placeholder
  item, deletion, addition, reload and the "all ticked" query.

Module `Common` holds what these share: a nullable reference as `Option`, table handles
named by path, opaque NetworkTables values, and the `Outcome` of a handler that may throw.

How the model stands in for what it cannot run:

- The NetworkTables library is an oracle.
  - The connected flag it reports at each poll of the connection wait is a sequence of booleans.
  - A name lookup is the list of (family, text) addresses it resolved.
  - Tables are value handles: two handles are the same table exactly when their paths are equal.
- Listener calls and `ConnectionEvent` raises are recorded in trace fields.
- Writes to tables are recorded in a trace field.
- The log directory is a map from file name to contents.
- The checklist data file is one stored list of texts.
- `ChecklistEditing.CheckBox.SetChecked` stands for the operator ticking or clearing a box in the window. It models no code of the editor; `CheckListComplete` reads what it sets.
- The `ConnectionEvent` trace records every raise attempt. Handlers of the event are not modelled, so a raise that `?.Invoke` delivers to nobody is recorded too.
- Exceptions the C# code lets escape are an explicit `Threw` outcome or a `KeyNotFound`
  dispatch. When none of them is caught, the model documents the failure, not a recovery.

Facts about the code that the model keeps:

- Registering a key twice throws: `Dictionary.Add` rejects a duplicate key. The
  registration methods therefore require a fresh key.
- `NTInterface` has no disconnect operation, no replay of values on connect, no kind check
  on dispatch and no de-duplication of connection events. `ConnectionEvent` is only ever
  raised with `true`, after a successful attempt.
- An `auto_modes` payload that fails to decode is not caught. The exception leaves the
  handler, and a payload that decodes to null leaves the list cleared.
- When the notifying table is the autonomous table, the membership test uses the bare key and the call uses
  `"autonomous/" + key`. A listener registered with `AddAutonomousKeyListener` is therefore
  reached only when the bare key is registered too (`AutonomousListenerNeedsBareKey`).
  When it is not, the indexer fails (`KeyNotFound`).
- `Refresh` raises `AutoModesChanged` without a null check, and nothing attaches a handler
  to that event. After a decoded `auto_modes` payload refills the list, the selection is
  therefore never sent (see "## Findings").

## Model

| member | source | states |
|---|---|---|
| `Commands.RelayCommand.constructor` | Dashboard.net/RelayCommand.cs:8-11 | a new command has both delegates null and no subscriber |
| `Commands.RelayCommand.CanExecute` | Dashboard.net/RelayCommand.cs:13-17 | false when the determiner is null, otherwise exactly the determiner's answer |
| `Commands.CanExecuteIgnoresParameter` | Dashboard.net/RelayCommand.cs:13-17 | the parameter of `CanExecute` never changes its answer |
| `Commands.RelayCommand.Execute` | Dashboard.net/RelayCommand.cs:19-23 | no call when the action is null; otherwise one call of the action with the parameter unchanged |
| `Commands.RelayCommand.Subscribe` | Dashboard.net/RelayCommand.cs:8 | subscribing to `CanExecuteChanged` adds one subscriber and touches neither delegate |
| `Commands.RelayCommand.RaiseCanExecuteChanged` | Dashboard.net/RelayCommand.cs:28-31 | subscribers are notified once when there are any, nothing happens otherwise, both delegates are unchanged |
| `NTFrontEnd.AutonomousKey` | Dashboard.net/NTInterface.cs:144-147 | the registry key of an autonomous key is `"autonomous/"` followed by exactly that key |
| `NTFrontEnd.AutonomousKeyInjective` | Dashboard.net/NTInterface.cs:144-147 | distinct autonomous keys never share a registry key |
| `NTFrontEnd.Route` | Dashboard.net/NTInterface.cs:158-173 | no listener iff the raw key is unregistered; otherwise the target is the raw key, or `"autonomous/" + key` for the autonomous table; a call goes to exactly the listener registered under the target, and a missing target is a `KeyNotFound` failure |
| `NTFrontEnd.RoutePlainKey` | Dashboard.net/NTInterface.cs:158-173 | outside the autonomous table a registered key calls exactly its own listener |
| `NTFrontEnd.AutonomousListenerNeedsBareKey` | Dashboard.net/NTInterface.cs:160-161 | an autonomous-table change reaches a listener registered under `"autonomous/" + key` only if the bare key is registered as well, and is dropped otherwise |
| `NTFrontEnd.LastIPv4` | Dashboard.net/NTInterface.cs:224-229 | None iff no address is IPv4; otherwise the text of an IPv4 address after which no IPv4 address follows |
| `NTFrontEnd.GetIPV4FromMDNS` | Dashboard.net/NTInterface.cs:218-232 | the loop returns the last IPv4 address of the resolved list, or the input name unchanged when there is none |
| `NTFrontEnd.PollsTaken` | Dashboard.net/NTInterface.cs:113-117 | the wait makes at least one and at most all polls; every poll before the last saw no connection; it stops early only at a poll that saw one; its last poll saw a connection iff some poll would |
| `NTFrontEnd.PollsTakenAt` | Dashboard.net/NTInterface.cs:113-117 | the wait stops exactly at the first poll that reports connected |
| `NTFrontEnd.AllFalsePollsTaken` | Dashboard.net/NTInterface.cs:113-117 | when no poll reports connected, all polls are made |
| `NTFrontEnd.NTInterface.constructor` | Dashboard.net/NTInterface.cs:87-96 | empty registry, no table, not connecting; the connect command runs `OnConnectClick` and is gated by `!IsConnecting` |
| `NTFrontEnd.NTInterface.IsConnected` | Dashboard.net/NTInterface.cs:33-39 | false whenever no SmartDashboard table has been obtained; otherwise the library's connected flag |
| `NTFrontEnd.NTInterface.LinkReported` | Dashboard.net/NTInterface.cs:37 | when the library reports the link up or down, `IsConnected` follows the report as long as a SmartDashboard table exists |
| `NTFrontEnd.NTInterface.StatusMessage` | Dashboard.net/NTInterface.cs:43-51 | CONNECTED iff connected; CONNECTING iff not connected and an attempt is in progress; OFFLINE iff neither |
| `NTFrontEnd.NTInterface.ConnectCanExecute` | Dashboard.net/NTInterface.cs:94 | the connect command can execute exactly when no attempt is in progress |
| `NTFrontEnd.NTInterface.GetAutonomousTable` | Dashboard.net/NTInterface.cs:71-78 | a memoised handle is returned unchanged; otherwise the sub-table is obtained only while connected |
| `NTFrontEnd.AutonomousTableIsMemoised` | Dashboard.net/NTInterface.cs:71-78 | while connected, two successive reads return the same autonomous handle |
| `NTFrontEnd.NTInterface.AddSmartDashboardKeyListener` | Dashboard.net/NTInterface.cs:134-137 | requires an unregistered key (the `Add` would throw); the registry gains exactly that entry and every other entry is unchanged |
| `NTFrontEnd.NTInterface.AddAutonomousKeyListener` | Dashboard.net/NTInterface.cs:144-147 | registers the listener under exactly `"autonomous/" + key` |
| `NTFrontEnd.NTInterface.NTValueChanged` | Dashboard.net/NTInterface.cs:170-173 | calls the registered listener once with the value, or fails with `KeyNotFound` when the key is absent |
| `NTFrontEnd.NTInterface.OnTableValuesChanged` | Dashboard.net/NTInterface.cs:158-163 | the outcome follows `Route`, with the notifying table compared against the autonomous table; for a registered key that table is first obtained through the lazy getter (kept when memoised, taken from SmartDashboard while connected); an unregistered key changes nothing at all; a call adds exactly one invocation carrying the received value |
| `NTFrontEnd.NTInterface.WaitForConnection` | Dashboard.net/NTInterface.cs:113-117 | waits `PollsTaken` seconds and leaves the flag seen at the last poll |
| `NTFrontEnd.NTInterface.StartClient` | Dashboard.net/NTInterface.cs:100-108 | the client is set to port 1735 and to the last IPv4 address resolved for the connect address (or that address itself), started, and holds the SmartDashboard table |
| `NTFrontEnd.NTInterface.ConnectAsync` | Dashboard.net/NTInterface.cs:98-123 | configures port 1735 and the chosen address, obtains SmartDashboard, polls at most 10 times, shuts a client that is still disconnected down, and returns the final connected state, which holds iff some poll saw a connection |
| `NTFrontEnd.NTInterface.BeginConnect` | Dashboard.net/NTInterface.cs:178-182 | marks the attempt in progress, so the connect command can no longer execute; notifies command subscribers once; records the address |
| `NTFrontEnd.NTInterface.FinishConnect` | Dashboard.net/NTInterface.cs:188-195 | clears the in-progress mark; notifies command subscribers once; raises `ConnectionEvent(true)` once iff connected |
| `NTFrontEnd.NTInterface.OnConnectClick` | Dashboard.net/NTInterface.cs:176-196 | afterwards no attempt is in progress; the client is configured for port 1735 and the resolved IPv4 address, holds the SmartDashboard table, waited `PollsTaken` seconds, and is still running iff connected; connected iff some poll saw a connection; `ConnectionEvent(true)` is raised once iff connected, and never with false; the command notifies its subscribers twice |
| `NTFrontEnd.NTInterface.PressConnect` | Dashboard.net/NTInterface.cs:91-94 | the connect button runs an attempt iff no attempt is in progress; a refused press changes nothing at all; a run has every effect `OnConnectClick` states: client configuration, the bounded wait, shutdown when still disconnected, connected iff some poll saw a connection, `ConnectionEvent(true)` iff connected, and two command notifications |
| `AutoSelection.TakeIds` | Dashboard.net/AutonomousSelector.cs:150-156 | the first `min(n, length)` ids of the list, in list order |
| `AutoSelection.Selection` | Dashboard.net/AutonomousSelector.cs:146-156 | the selection is `min(3, count)` ids, each the id of the mode at the same position |
| `AutoSelection.SelectionDependsOnHeadIds` | Dashboard.net/AutonomousSelector.cs:150-156 | titles and entries after the third never affect the selection |
| `AutoSelection.InitialSelection` | Dashboard.net/AutonomousSelector.cs:57-61 | the initial selection is `hole_hotel_wall`, `_1`, `_2` |
| `AutoSelection.AutonomousSelector.constructor` | Dashboard.net/AutonomousSelector.cs:48-63 | the list starts as the five default modes in order, with no table, nothing sent and no `AutoModesChanged` handler, so the guarded raise reaches nobody |
| `AutoSelection.AutonomousSelector.TopThreeAutos` | Dashboard.net/AutonomousSelector.cs:146-156 | exactly `min(3, count)` ids, each the id of the entry at the same position |
| `AutoSelection.AutonomousSelector.SendAutoModes` | Dashboard.net/AutonomousSelector.cs:143-160 | writes the selection under `selected_modes` of the autonomous table and nothing else; throws and writes nothing when there is no table |
| `AutoSelection.AutonomousSelector.Refresh` | Dashboard.net/AutonomousSelector.cs:188-193 | as written: with no `AutoModesChanged` handler it throws and nothing is sent; with handlers they are told once and the current selection is re-sent |
| `AutoSelection.AutonomousSelector.GuardedRefresh` | Dashboard.net/AutonomousSelector.cs:188-193 | with the raise guarded, handlers are told once when there are any, and the selection is sent whenever the autonomous table exists |
| `AutoSelection.AutonomousSelector.SubscribeAutoModesChanged` | Dashboard.net/AutonomousSelector.cs:17 | attaching a handler to `AutoModesChanged` adds one subscriber |
| `AutoSelection.AutonomousSelector.OnDrop` | Dashboard.net/AutonomousSelector.cs:67-70 | re-sends the current selection and leaves the list as it is |
| `AutoSelection.AutonomousSelector.ReplaceAutoModes` | Dashboard.net/AutonomousSelector.cs:170-177 | on a decoded payload the list becomes exactly the decoded pairs in order, with no old entry left; no table or a malformed payload leaves the list alone and throws; a null payload throws with the list cleared |
| `AutoSelection.AutonomousSelector.OnAutoModesChanged` | Dashboard.net/AutonomousSelector.cs:168-181 | the list is replaced as by `ReplaceAutoModes`; the new selection is sent, and `AutoModesChanged` reaches its handlers once, iff a handler is attached; it completes iff there is a table, the payload decodes and a handler is attached; the failure paths write and raise nothing |
| `AutoSelection.AutonomousSelector.OnAutoKeyChanged` | Dashboard.net/AutonomousSelector.cs:135-138 | any other key than `auto_modes` changes nothing, sends nothing and raises nothing; `auto_modes` refills the list from the decoded pairs and, iff a handler is attached, raises `AutoModesChanged` once and sends the selection, as `OnAutoModesChanged` does; with no table or an undecodable payload the list and the writes are unchanged, and a payload that decodes to null leaves the list empty and writes nothing |
| `AutoSelection.UnsubscribedRefillSendsNothing` | Dashboard.net/AutonomousSelector.cs:168-193 | for a selector as the application builds it, a connection followed by a well-formed payload refills the list, throws, and writes no selection |
| `AutoSelection.AutonomousSelector.OnConnect` | Dashboard.net/AutonomousSelector.cs:81-89 | a disconnection changes nothing; a connection takes the autonomous sub-table of SmartDashboard, or none when there is no SmartDashboard table |
| `RobotLogs.TrimStart` | Dashboard.net/DataHandlers/RobotLogSaver.cs:94 | a suffix of the input, only white space dropped, not starting with white space |
| `RobotLogs.TrimEnd` | Dashboard.net/DataHandlers/RobotLogSaver.cs:94 | a prefix of the input, only white space dropped, not ending with white space |
| `RobotLogs.TrimEndOfTrimStart` | Dashboard.net/DataHandlers/RobotLogSaver.cs:94 | trimming the start and then the end cuts only white space, and only from the two ends |
| `RobotLogs.Trim` | Dashboard.net/DataHandlers/RobotLogSaver.cs:94 | the result is the input with only white space cut from its two ends, and neither of its ends is white space |
| `RobotLogs.TrimOfTrimmed` | Dashboard.net/DataHandlers/RobotLogSaver.cs:94 | trimming a string with no white space at either end returns it unchanged |
| `RobotLogs.IndexOf` | Dashboard.net/DataHandlers/RobotLogSaver.cs:90 | the position of the first occurrence |
| `RobotLogs.StripExtension` | Dashboard.net/DataHandlers/RobotLogSaver.cs:88-91 | a prefix without '.', which is cut exactly at the first '.' |
| `RobotLogs.TrimKeepsNoDot` | Dashboard.net/DataHandlers/RobotLogSaver.cs:88-94 | trimming a string without '.' cannot bring in a '.' |
| `RobotLogs.FormatFileName` | Dashboard.net/DataHandlers/RobotLogSaver.cs:85-101 | the result is a stem followed by ".log"; the stem is the part before the first '.' with only outer white space cut, holds no '.' and has no white space at either end |
| `RobotLogs.StripFormatted` | Dashboard.net/DataHandlers/RobotLogSaver.cs:88-91 | a name made of a stem without '.' and ".log" loses exactly the ".log" |
| `RobotLogs.FormatFileNameIdempotent` | Dashboard.net/DataHandlers/RobotLogSaver.cs:85-101 | formatting a formatted name returns it unchanged |
| `RobotLogs.ReplaceNewlines` | Dashboard.net/DataHandlers/RobotLogSaver.cs:58 | data without a line feed is unchanged, and the result never starts with a line feed |
| `RobotLogs.CollapseReplaceNewlines` | Dashboard.net/DataHandlers/RobotLogSaver.cs:58 | turning CR LF back into line feeds recovers the original data exactly |
| `RobotLogs.ReplacedLineFeedsFollowCarriageReturns` | Dashboard.net/DataHandlers/RobotLogSaver.cs:58 | after the replacement every line feed follows a carriage return |
| `RobotLogs.SavedText` | Dashboard.net/DataHandlers/RobotLogSaver.cs:58-75 | one save writes text that ends with CR LF, and whose body collapses back to exactly the data |
| `RobotLogs.RobotLogSaver.constructor` | Dashboard.net/DataHandlers/RobotLogSaver.cs:19 | no log name at start |
| `RobotLogs.RobotLogSaver.LogNameUnset` | Dashboard.net/DataHandlers/RobotLogSaver.cs:28 | `IsNullOrEmpty(LogName)`; since a set name is never empty, it holds exactly while no name is set |
| `RobotLogs.RobotLogSaver.SetLogName` | Dashboard.net/DataHandlers/RobotLogSaver.cs:25-33 | the name is set, formatted, only while it is null or empty and only by the robot logging interface; once set it never changes; a null sender throws while the name is unset |
| `RobotLogs.RobotLogSaver.SaveLogData` | Dashboard.net/DataHandlers/RobotLogSaver.cs:52-78 | null or empty data does nothing; no name set throws; an existing file with `AppendOrCreate` gets the text appended, otherwise the file is replaced; the text is the data with CR LF line ends followed by CR LF |
| `ChecklistEditing.CheckBox.constructor` | Dashboard.net/Checklist/ChecklistEditor.xaml.cs:41-44 | a new box carries its text and is unticked |
| `ChecklistEditing.Texts` | Dashboard.net/Checklist/ChecklistEditor.xaml.cs:52-53 | one text per box, each the content of the box at the same position |
| `ChecklistEditing.AllChecked` | Dashboard.net/Checklist/ChecklistEditor.xaml.cs:64 | true iff every box is ticked |
| `ChecklistEditing.RemoveFirst` | Dashboard.net/Checklist/ChecklistEditor.xaml.cs:109 | a list without the box is unchanged; otherwise exactly one element is removed |
| `ChecklistEditing.RemoveFirstSplits` | Dashboard.net/Checklist/ChecklistEditor.xaml.cs:109 | the box taken out is its first occurrence, and the boxes before and after it keep their order |
| `ChecklistEditing.RemoveFirstMultiset` | Dashboard.net/Checklist/ChecklistEditor.xaml.cs:109 | removal takes out exactly one copy of the box and nothing else |
| `ChecklistEditing.ReloadedTexts` | Dashboard.net/Checklist/ChecklistEditor.xaml.cs:143-151 | the placeholder alone for absent or empty data, the stored texts otherwise; never empty |
| `ChecklistEditing.ChecklistEditor.constructor` | Dashboard.net/Checklist/ChecklistEditor.xaml.cs:72-85 | the window opens showing the reloaded checklist, all unticked |
| `ChecklistEditing.ChecklistEditor.CheckListItems` | Dashboard.net/Checklist/ChecklistEditor.xaml.cs:50-54 | one text per box shown, each the content of the box at the same position |
| `ChecklistEditing.ChecklistEditor.CheckListComplete` | Dashboard.net/Checklist/ChecklistEditor.xaml.cs:60-66 | true iff every box shown is ticked |
| `ChecklistEditing.ChecklistEditor.SetCheckListItems` | Dashboard.net/Checklist/ChecklistEditor.xaml.cs:34-49 | the list is rebuilt from new unticked boxes carrying the given texts in order |
| `ChecklistEditing.ChecklistEditor.Reload` | Dashboard.net/Checklist/ChecklistEditor.xaml.cs:143-151 | shows `[DefaultTODO]` for absent or empty data, otherwise exactly the stored texts in order, all unticked |
| `ChecklistEditing.ChecklistEditor.DeleteItem` | Dashboard.net/Checklist/ChecklistEditor.xaml.cs:105-112 | a null box or one showing the placeholder changes nothing; otherwise the box is removed, the rest keep their order, and the stored list equals the texts shown |
| `ChecklistEditing.ChecklistEditor.AddItem` | Dashboard.net/Checklist/ChecklistEditor.xaml.cs:118-127 | the text is appended after the earlier texts, with a lone placeholder dropped first; all boxes are unticked, so the list is not complete; the stored list equals the texts shown |
| `ChecklistEditing.ReopenShowsStoredChecklist` | Dashboard.net/Checklist/ChecklistEditor.xaml.cs:72-151 | an editor opened on the list that `AddItem` or `DeleteItem` stored shows the same texts, or the placeholder once the last item was deleted |

## Left out

- Thread marshalling and asynchrony are not modelled: `mainDispatcher.Invoke`, `Task.Run`/`await` and the real-time `Task.Delay`. Listener calls are direct. An attempt runs to its end inside one call. The one-second delays are a counter.
- A dispatcher that is still null is not modelled. That is the state before the main window is set, where the source would throw on a notification.
- Table identity is not modelled by reference. The source compares `ITable` references (`table == AutonomousTable` at Dashboard.net/NTInterface.cs:161); the model compares table paths, so two handles for the same path count as the same table.
- The NetworkTables library is not modelled. This covers `SetPort`, `SetIPAddress`, `SetClientMode`, `Initialize`, `Shutdown`, `GetTable`, `GetSubTable`, `GetString`, `PutString` and value contents. The configuration and the running flag are fields.
- The listeners that the `_SmartDashboard` setter attaches on every connection attempt are not modelled. Nor are the sub-table listener of `AutonomousSelector.OnConnect` or the unused `AutonomousTable` setter. They are registrations inside the library.
- NTFrontEnd.NTInterface.ConnectAsync: the library flag is read once per poll and assumed to hold until the next poll. The source reads it again after the loop and could see a later change.
- NTFrontEnd.GetIPV4FromMDNS: a lookup that throws in `Dns.GetHostAddresses` is not modelled; the resolved list is an input. The `IPAddress.Parse(address.ToString())` round trip is taken to keep the address family.
- `OnConnectionEvent` (an empty stub) and every `PropertyChanged` notification are not modelled. Handlers of `PropertyChanged` come from XAML data binding, which is not part of this model. That includes the unguarded raises in `OnConnectClick` and `Refresh`, whose handlers are taken to be present.
- JSON encoding and decoding are not modelled. The decoded `auto_modes` dictionary is a list of pairs in enumeration order, and a written selection is the list of ids it encodes.
- UI plumbing is not modelled: the drag-and-drop manager, window sizing, `Hide`, the closing handler and `AddTextBox`. `OnDrop` does not reorder the list: its handler only re-sends the selection.
- The event wiring between the classes is not modelled. In `Master.cs`, `_Dashboard_NT` is a `SmartDashboard` (SmartDashboard.cs), not an `NTInterface`. `SmartDashboard` declares the `Connected` event that `AutonomousSelector` subscribes to (AutonomousSelector.cs:54) and raises it with `true` after a successful connection. `OnConnect` is modelled as a handler called with the flag and the SmartDashboard handle.
- The checklist editor's `DeleteItemCommand` and `AddItemCommand` are not modelled. They are `RelayCommand`s whose determiner is constantly true, so `Commands.RelayCommand` covers them.
- Some checklist failures are not modelled: a `DeleteItem` parameter that is not a check box (an invalid cast) and a null `AddItem` text.
- RobotLogs.RobotLogSaver.SaveLogData: the default argument `typeOfSave = AppendOrCreate` is not modelled; every call passes the mode explicitly.
- Directory and file-stream handling in `SaveLogData` is not modelled: directory creation, `File.Create`, `FileStream` and `StreamWriter`. The log directory path is dropped from file names. `OpenLogFolder` starts a process.
- RobotLogs.FormatFileName: `IndexOf(".")` is modelled as an ordinal search. A null file name is not modelled.
- `Environment.NewLine` is fixed to CR LF, the value on Windows.
- `DataDealer` (both copies), `ConstantMaster`, `RobotLogInterface`, `SmartDashboard.cs`, `MainWindow.xaml.cs`, `Logger`, the camera window, `BlingControllerBackend` and `Master` are not part of this model. They are file and JSON I/O, floating-point constants, UI and object wiring.

## Findings

| source | as written | input that shows it | evidently intended | confidence | as-written member | corrected member |
|---|---|---|---|---|---|---|
| Dashboard.net/AutonomousSelector.cs:190 | `Refresh` invokes `AutoModesChanged` directly, and no handler is ever attached to it, so the call throws before `SendAutoModes` | a connected selector, then an `auto_modes` payload `{"only": "Only mode"}`: the list is refilled, the handler throws, and no `selected_modes` write happens | a guarded raise (`?.Invoke`, as in the constructor at :62), so the selection is sent whenever the table exists | not executed | `AutoSelection.AutonomousSelector.Refresh`, `AutoSelection.UnsubscribedRefillSendsNothing` | `AutoSelection.AutonomousSelector.GuardedRefresh` |
