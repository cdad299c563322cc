# run-in-roblox: the place runner, modelled in Dafny

`PlaceRunner::run` runs a Lua script inside Roblox Studio. It writes a
plugin file named after the session's port into Studio's plugin
directory, starts a local message receiver, launches Studio on the place
file, waits up to 60 seconds for the first message, which must be
`Start`, and then relays every event of every `Messages` batch to the
caller's channel as `Some(event)` until `Stop`, which it forwards as one
`None`. On that path
it stops the receiver and removes the plugin file. The Studio process is
owned by a `KillOnDrop` guard, so it is killed on every exit after it was
spawned.

The model has four modules:

- `Launch` (launch.dfy): the launch command, with `vinegar` substitution,
  the `studio run` prefix, the place file as the only positional argument
  and output discarded outside debug mode. It also holds the plugin file
  name `run_in_roblox-<port>.rbxmx`, with the port written in decimal.
  `Command` is a class whose methods change it in place, as the source's
  `Command` is changed by `.arg`, `.stdout` and `.stderr`.
- `Relay` (relay.dfy): the handshake-then-relay protocol. It is stated by
  the functions `Converse` and `RelayLoop`, and characterised by the
  reference definitions `Events` and `Stream`. The receiver and the
  channel are classes modelled at their boundary.
- `Runner` (runner.dfy): `Run` and `RelayMessages` are imperative methods;
  `RelayMessages` holds the source's loop and its inner `for` loop.
  `RelayMessages` is proved equal to the specification function
  `Converse`, and `Run` to `RunSpec`, which is built on `Converse`. The
  lemmas state what a whole run guarantees.
- `Wrappers` (wrappers.dfy): `Option`.

The environment is an input:

- `studio` is what `RobloxStudio::locate` found.
- `HostIo` says whether creating the file, writing it, spawning Studio
  and removing the file succeed.
- `arrivals` is every message the receiver will yield, in order.
- The channel's consumer hangs up after `hangUp` items (never, when it is
  `None`).

## Model

| member | source | states |
|---|---|---|
| Launch.Contains | src/place_runner.rs:43 | the empty pattern is contained in every string, and nothing longer than the string is |
| Launch.StudioExecutable | src/place_runner.rs:36-48 | the executable is "vinegar" exactly when the application path contains "vinegar", and the application path unchanged otherwise |
| Launch.StudioLaunch | src/place_runner.rs:72-89 | the program is the chosen executable, the place file is the last argument, and stdout and stderr get the same setting |
| Launch.Command.Arg | src/place_runner.rs:80-84 | appends one argument, leaving the program and the output settings alone |
| Launch.Command.Stdout | src/place_runner.rs:87 | sets where the child's standard output goes |
| Launch.Command.Stderr | src/place_runner.rs:88 | sets where the child's standard error goes |
| Launch.PluginFileName | src/place_runner.rs:56 | the name starts with `run_in_roblox-` and ends with `.rbxmx`, with something between them |
| Relay.RelayLoop | src/place_runner.rs:107-120 | the loop takes messages only from its position on and never past the last, and ends only at `Stop`, a failed send or an empty queue, never with a handshake error |
| Relay.Converse | src/place_runner.rs:96-120 | the run times out exactly when no first message arrives, fails with invalid-first-message exactly when the first is not `Start`, and never takes more messages than arrive |
| Relay.MessageReceiver.Stop | src/place_runner.rs:122 | the receiver is stopped afterwards |
| Runner.PluginDir.Create | src/place_runner.rs:64 | the plugin file is in the directory afterwards |
| Runner.PluginDir.Remove | src/place_runner.rs:123 | the plugin file is gone from the directory afterwards |
| Runner.RunSpec | src/place_runner.rs:50-126 | a run that never spawned Studio sends nothing, takes nothing and kills nothing; the plugin file is removed only if it was created and the receiver stopped; Studio is killed at most once |
| Launch.Command.constructor | src/place_runner.rs:72 | a new command has the given program, no arguments, and inherited stdout and stderr |
| Relay.MessageReceiver.Start | src/place_runner.rs:67-70 | a started receiver has the session's port and server id, will yield exactly the given arrivals in order, has handed out nothing and is not stopped |
| Relay.Deliver | src/place_runner.rs:111-117 | sending items one by one succeeds exactly when they all fit before the consumer hangs up; the channel then holds at least as many items as before, never more than the consumer accepts, and on failure exactly as many as it accepted |
| Relay.DeliverContents | src/place_runner.rs:111-117 | what the channel holds afterwards extends the old items and is a prefix of the old items followed by the new ones, and is all of them exactly when the send succeeded |
| Relay.DeliverFailsAt | src/place_runner.rs:115-117 | a batch whose send fails at item `j` leaves on the channel the old items followed by the batch's first `j` events, each as `Some` |
| Runner.KillOnDrop.constructor | src/place_runner.rs:91-94 | a newly wrapped Studio process is running and has not been killed |
| Launch.ContainsIffOccurs | src/place_runner.rs:43 | the substring test used on the application path is true exactly when the pattern occurs at some index |
| Launch.ExecutableMentionsVinegarIff | src/place_runner.rs:36-48 | the executable chosen contains "vinegar" exactly when the application path does, so the later test on the program name agrees with the choice |
| Launch.StudioLaunchRules | src/place_runner.rs:72-89 | program is "vinegar" and args are `studio run <place>` when the application path contains "vinegar"; otherwise program is the path and args are `<place>` (both directions); the place is always the last argument; stdout and stderr are null exactly when not debugging |
| Launch.BuildStudioCommand | src/place_runner.rs:72-89 | the command built by successive in-place `arg`/`stdout`/`stderr` calls equals the launch specification |
| Launch.DecimalString | src/place_runner.rs:56 | the port is written as a non-empty string of decimal digits with no leading zero |
| Launch.DecimalRoundTrip | src/place_runner.rs:56 | reading the decimal string back gives the number |
| Launch.PluginFileNameEncodesPort | src/place_runner.rs:56 | the plugin file name is `run_in_roblox-`, then the port's digits, then `.rbxmx`, and the port can be read back from it |
| Launch.PluginFileNameInjective | src/place_runner.rs:54-56 | two sessions get the same plugin file name exactly when their ports are equal |
| Relay.StreamOfStopFree | src/place_runner.rs:107-120 | over messages without `Stop`, the relayed stream is the concatenation of all batches' events, each as `Some` |
| Relay.StreamThroughStop | src/place_runner.rs:107-120 | batches, then `Stop`, then anything: the stream is every event of the batches in order, then exactly one `None`, and nothing after `Stop` contributes |
| Relay.StreamSkipsStart | src/place_runner.rs:109 | inserting a `Start` anywhere leaves the relayed stream unchanged |
| Relay.StreamNoneIsLast | src/place_runner.rs:110-113 | `None` occurs in the stream only as its last item, and only when a `Stop` was received |
| Relay.RelayLoopOutput | src/place_runner.rs:107-120 | the channel receives the stream cut where the consumer hangs up; the loop ends `Stopped` when a `Stop` came and everything fit, `SendFailed` when something did not fit, and otherwise waits |
| Relay.RelayLoopConsumed | src/place_runner.rs:107-120 | the loop only ever takes messages from its position on, never past the last, ends `Stopped`, `SendFailed` or waiting, and waits only once every message is taken |
| Relay.RelayLoopStopsAtFirstStop | src/place_runner.rs:110-113 | a loop ending at `Stop` has taken exactly the messages through the first `Stop` and no later one |
| Relay.RelayLoopFailsAtOverflow | src/place_runner.rs:111-116 | a loop ending in a failed send has taken exactly the messages through the first one whose sends did not all fit |
| Relay.HandshakeTimeoutSendsNothing | src/place_runner.rs:96-100 | no first message: timeout error, nothing sent, nothing taken |
| Relay.InvalidFirstMessageSendsNothing | src/place_runner.rs:102-105 | a first message `Stop` or `Messages`: invalid-first-message error, nothing sent, one message taken |
| Relay.RelayDeliversEveryBatch | src/place_runner.rs:96-120 | `Start`, then batches and `Start`s, then `Stop`, with sends succeeding: output is exactly the batches' events in order as `Some`, then one `None`; exactly the messages through `Stop` are taken |
| Relay.SingleEventSession | src/place_runner.rs:96-120 | `Start`, one batch with one event, `Stop` yields `Some(event)` then `None` |
| Relay.StartAfterHandshakeIgnored | src/place_runner.rs:109 | a `Start` after the handshake changes neither the ending nor what is sent |
| Relay.NothingAfterNone | src/place_runner.rs:110-116 | for any input and any hang-up point, what is sent extends the channel's old contents, is a prefix of the stream, and holds a `None` only as its last item and only when the loop ended at `Stop` |
| Relay.SendFailureEndsRelay | src/place_runner.rs:111-116 | a failed send ends the relay at once: the channel holds exactly what fit, and the last message taken is the first whose delivery did not fit |
| Relay.MessageReceiver.RecvTimeout | src/place_runner.rs:96-97 | yields the next message, or `None` (timeout) when none will arrive |
| Relay.MessageReceiver.Recv | src/place_runner.rs:108 | yields the next message in arrival order, or `None` standing for a call that never returns |
| Relay.Sender.Send | src/place_runner.rs:111-116 | succeeds exactly while the consumer is connected and then appends the item; a failed send changes nothing |
| Runner.KillOnDrop.Drop | src/place_runner.rs:18-25 | dropping the guard kills the child and counts one kill |
| Runner.RelayMessages | src/place_runner.rs:96-120 | the handshake and the loop, with its inner `for` loop over a batch, end as `Converse` says, send what it says, and take exactly the messages it says from the receiver |
| Runner.Run | src/place_runner.rs:50-126 | status, channel contents and effects equal `RunSpec`, and the plugin directory afterwards gains the plugin file, loses it, or is unchanged as those effects say |
| Runner.StudioKilledOnEveryExit | src/place_runner.rs:18-25 | Studio is spawned exactly when it was found and the plugin written; a spawned Studio is killed exactly once on every exit and spawned with the launch command |
| Runner.CleanupOnlyAfterStop | src/place_runner.rs:107-125 | the receiver is stopped exactly when the relay ended at `Stop`; the plugin file is removed exactly when the run finished; other error returns skip both |
| Runner.FinishedRunLeavesNothing | src/place_runner.rs:122-125 | after a finished run Studio is killed, the receiver stopped and the plugin file absent from the directory |
| Runner.HandshakeFailureSendsNothing | src/place_runner.rs:91-105 | after spawn, a timeout or a wrong first message fails the run, sends nothing and kills Studio |
| Runner.RunRelaysEveryBatch | src/place_runner.rs:50-126 | a successful session delivers every batch's events in order, then one `None`, takes nothing after `Stop`, and cleans up fully |
| Runner.ClosedChannelFailsRun | src/place_runner.rs:111-116 | a consumer that hangs up before the whole stream after the handshake is delivered fails the run; a run that fails on the channel delivered exactly what fit, took messages up to and including the first whose delivery did not fit, killed Studio, and left the receiver and plugin file |

## Left out

- `RobloxStudio::locate`, `plugins_path` and `application_path` come from
  an external crate. They are inputs: an optional `StudioInstall` and the
  `PluginDir` object.
- The plugin directory is a set of file names. `Path::join` is not
  modelled.
- The contents of the plugin file are not modelled: they come from
  `plugin.rs`, which is not part of this model. Only whether `File::create`
  and `write` succeed is modelled, and whether the file then exists.
  `serverId` and `luaScript` are carried but never interpreted.
- `MessageReceiver` (message_receiver.rs) is not part of this model. Its
  HTTP listener, background thread, token check and queue are replaced by
  a queue of the messages that will arrive. `recv_timeout` returns `None`
  exactly when that queue is empty.
- The 60-second bound itself is not modelled, since there is no clock. A
  first message that arrives only after the bound is not told apart from
  one that never arrives.
- When the messages run out before any `Stop` and every send so far has
  succeeded, the next `recv` never returns, so `run` never returns. The model reports this as `StillRunning`: Studio is not killed
  and nothing is cleaned up.
- Spawning a process and the `kill` call are not modelled. Only the
  guard's kill count is: a failing kill is ignored in the source and has
  no effect in the model.
- `mpsc::Sender` is an output sequence. The consumer hangs up after a
  chosen number of items.
- `Run` calls `Drop` after removing the plugin file, as the source's
  scope exit does, but `Effects` records only counts and flags, not the
  order in which the effects happened. Any `Drop` of `MessageReceiver`
  is not modelled.
- Paths are strings. The `.to_str().unwrap()` panics on non-UTF-8 paths
  are not modelled, and neither is `PathBuf::display` of the place path.

## Cleanup as the code performs it

- Only a relay that ends at `Stop` with every send delivered stops the
  receiver and removes the plugin file.
- On every error after `File::create` succeeds, including a failed
  `write`, the plugin file stays on disk.
- Every error return except a failed `remove_file` skips `stop()`: that
  one error comes after `stop()` has run. After a failed spawn, the
  receiver that was started is never explicitly stopped.
