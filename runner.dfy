/** `PlaceRunner::run` (src/place_runner.rs:50-126): locate Studio, write
    the plugin file, start the receiver, launch Studio, hold the
    handshake and relay the plugin's messages, then clean up. The world
    outside (Studio's install, the file system, process spawning) is
    given as inputs and as the two small classes below. */
module Runner {
  import opened Wrappers
  import opened Launch
  import opened Relay

  /** The session `run` is called on. */
  datatype PlaceRunner = PlaceRunner(port: u16, placePath: string, serverId: string, luaScript: string, debug: bool)

  /** What `RobloxStudio::locate` found that `run` uses besides the plugin
      directory: the path of the Studio application. */
  datatype StudioInstall = StudioInstall(applicationPath: string)

  /** Whether each fallible host operation succeeds: `File::create`,
      `plugin.write`, `spawn`, `fs::remove_file`. */
  datatype HostIo = HostIo(createOk: bool, writeOk: bool, spawnOk: bool, removeOk: bool)

  datatype RunError =
    | StudioNotFound
    | PluginCreateFailed
    | PluginWriteFailed
    | SpawnFailed
    | StudioTimeout
    | InvalidFirstMessage
    | ChannelClosed
    | PluginRemoveFailed

  /** `run`'s result, or `StillRunning` when it waits in `recv` forever. */
  datatype RunStatus = Finished | Failed(error: RunError) | StillRunning

  /** What `run` did to the world: whether it created the plugin file,
      started the receiver, which command it spawned, how many messages it
      took, whether it stopped the receiver and removed the plugin file,
      and how many times the Studio process was killed. */
  datatype Effects = Effects(
    pluginCreated: bool,
    receiverStarted: bool,
    launched: Option<LaunchCommand>,
    consumed: nat,
    receiverStopped: bool,
    pluginRemoved: bool,
    kills: nat)

  const NoEffects := Effects(false, false, None, 0, false, false, 0)

  datatype RunOutcome<E> = RunOutcome(status: RunStatus, sent: seq<Option<E>>, effects: Effects)

  /** Studio's plugin directory: the names of the files in it. */
  class PluginDir {
    var files: set<string>

    constructor (files: set<string>)
      ensures this.files == files
    {
      this.files := files;
    }

    method Create(name: string)
      modifies this
      ensures files == old(files) + {name}
    {
      files := files + {name};
    }

    method Remove(name: string)
      modifies this
      ensures files == old(files) - {name}
    {
      files := files - {name};
    }
  }

  /** `KillOnDrop`: owns the spawned Studio process and kills it when
      dropped; a failing kill is ignored. */
  class KillOnDrop {
    var childRunning: bool
    ghost var kills: nat

    constructor ()
      ensures childRunning && kills == 0
    {
      childRunning := true;
      kills := 0;
    }

    method Drop()
      modifies this
      ensures !childRunning && kills == old(kills) + 1
    {
      childRunning := false;
      kills := kills + 1;
    }
  }

  /** The plugin directory after a run with these effects. */
  function PluginDirAfter(files: set<string>, name: string, effects: Effects): set<string> {
    if effects.pluginRemoved then files - {name}
    else if effects.pluginCreated then files + {name}
    else files
  }

  /** Everything `run` does, as a function of its inputs. */
  ghost function RunSpec<E>(runner: PlaceRunner, studio: Option<StudioInstall>, io: HostIo,
                            arrivals: seq<Message<E>>, sent: seq<Option<E>>, hangUp: Option<nat>): (o: RunOutcome<E>)
    requires Fits(hangUp, |sent|)
    ensures o.effects.launched.None? ==> o.sent == sent && o.effects.kills == 0 && o.effects.consumed == 0
    ensures o.effects.pluginRemoved ==> o.effects.pluginCreated && o.effects.receiverStopped
    ensures o.effects.kills <= 1
  {
    if studio.None? then RunOutcome(Failed(StudioNotFound), sent, NoEffects)
    else if !io.createOk then RunOutcome(Failed(PluginCreateFailed), sent, NoEffects)
    else if !io.writeOk then RunOutcome(Failed(PluginWriteFailed), sent, NoEffects.(pluginCreated := true))
    else if !io.spawnOk then RunOutcome(Failed(SpawnFailed), sent, NoEffects.(pluginCreated := true, receiverStarted := true))
    else
      var cmd := StudioLaunch(studio.value.applicationPath, runner.placePath, runner.debug);
      var c := Converse(arrivals, sent, hangUp);
      var after := Effects(true, true, Some(cmd), c.consumed, false, false, 1);
      match c.ending
      case Timeout => RunOutcome(Failed(StudioTimeout), c.sent, after)
      case InvalidFirst => RunOutcome(Failed(InvalidFirstMessage), c.sent, after)
      case SendFailed => RunOutcome(Failed(ChannelClosed), c.sent, after)
      case Blocked => RunOutcome(StillRunning, c.sent, after.(kills := 0))
      case Stopped =>
        if io.removeOk then RunOutcome(Finished, c.sent, after.(receiverStopped := true, pluginRemoved := true))
        else RunOutcome(Failed(PluginRemoveFailed), c.sent, after.(receiverStopped := true))
  }

  /** The handshake and the relay loop (src/place_runner.rs:96-120). */
  method RelayMessages<E>(receiver: MessageReceiver<E>, sender: Sender<E>) returns (ending: Ending)
    requires sender.Valid()
    modifies receiver`queue, receiver`received, sender`sent
    ensures sender.Valid()
    ensures var c := Converse(old(receiver.queue), old(sender.sent), sender.hangUp);
      && ending == c.ending && sender.sent == c.sent
      && c.consumed <= |old(receiver.queue)|
      && receiver.received == old(receiver.received) + old(receiver.queue)[..c.consumed]
      && receiver.queue == old(receiver.queue)[c.consumed..]
  {
    ghost var msgs := receiver.queue;
    ghost var taken := receiver.received;
    ghost var spec := Converse(msgs, sender.sent, sender.hangUp);
    var first := receiver.RecvTimeout();
    if first.None? {
      return Timeout;
    }
    if !first.value.Start? {
      return InvalidFirst;
    }
    ghost var i := 1;
    while true
      invariant 1 <= i <= |msgs|
      invariant sender.Valid()
      invariant receiver.queue == msgs[i..] && receiver.received == taken + msgs[..i]
      invariant RelayLoop(msgs, i, sender.sent, sender.hangUp) == spec
      decreases |receiver.queue|
    {
      var next := receiver.Recv();
      if next.None? {
        return Blocked;
      }
      assert next.value == msgs[i];
      i := i + 1;
      match next.value
      case Start =>
      case Stop =>
        var ok := sender.Send(None);
        if !ok {
          return SendFailed;
        }
        break;
      case Messages(batch) =>
        ghost var before := sender.sent;
        for j := 0 to |batch|
          modifies sender`sent
          invariant sender.Valid()
          invariant sender.sent == before + Wrap(batch[..j])
        {
          var ok := sender.Send(Some(batch[j]));
          if !ok {
            DeliverFailsAt(before, batch, j, sender.hangUp);
            return SendFailed;
          }
          assert batch[..j + 1] == batch[..j] + [batch[j]];
        }
        assert batch[..|batch|] == batch;
    }
    return Stopped;
  }

  /** `PlaceRunner::run`, with Studio's install, the host's fallible
      operations and the messages the plugin will send given as inputs. */
  method Run<E>(runner: PlaceRunner, studio: Option<StudioInstall>, io: HostIo, dir: PluginDir,
                arrivals: seq<Message<E>>, sender: Sender<E>)
    returns (status: RunStatus, ghost effects: Effects)
    requires sender.Valid()
    modifies dir, sender
    ensures sender.Valid()
    ensures var o := RunSpec(runner, studio, io, arrivals, old(sender.sent), sender.hangUp);
      status == o.status && sender.sent == o.sent && effects == o.effects
    ensures dir.files == PluginDirAfter(old(dir.files), PluginFileName(runner.port), effects)
  {
    effects := NoEffects;
    if studio.None? {
      return Failed(StudioNotFound), effects;
    }
    var pluginName := PluginFileName(runner.port);
    if !io.createOk {
      return Failed(PluginCreateFailed), effects;
    }
    dir.Create(pluginName);
    effects := effects.(pluginCreated := true);
    if !io.writeOk {
      return Failed(PluginWriteFailed), effects;
    }
    var receiver := new MessageReceiver.Start(runner.port, runner.serverId, arrivals);
    effects := effects.(receiverStarted := true);
    var studioCmd := BuildStudioCommand(studio.value.applicationPath, runner.placePath, runner.debug);
    if !io.spawnOk {
      return Failed(SpawnFailed), effects;
    }
    var studioProcess := new KillOnDrop();
    effects := effects.(launched := Some(studioCmd.Snapshot()));

    // From here on every exit drops `studioProcess`, which kills Studio.
    var ending := RelayMessages(receiver, sender);
    match ending {
      case Timeout => status := Failed(StudioTimeout);
      case InvalidFirst => status := Failed(InvalidFirstMessage);
      case SendFailed => status := Failed(ChannelClosed);
      case Blocked => status := StillRunning;
      case Stopped =>
        receiver.Stop();
        if io.removeOk {
          dir.Remove(pluginName);
          effects := effects.(pluginRemoved := true);
          status := Finished;
        } else {
          status := Failed(PluginRemoveFailed);
        }
    }
    if !status.StillRunning? {
      studioProcess.Drop();
    }
    effects := effects.(consumed := |receiver.received|, receiverStopped := receiver.stopped, kills := studioProcess.kills);
  }

  // ---------------------------------------------------------------------
  // Properties of a whole run
  // ---------------------------------------------------------------------

  /** Studio is spawned only when it was found and the plugin file was
      written, and once spawned it is killed exactly once on every exit,
      success or error; only a run still waiting leaves it running. */
  lemma StudioKilledOnEveryExit<E>(runner: PlaceRunner, studio: Option<StudioInstall>, io: HostIo,
                                   arrivals: seq<Message<E>>, sent: seq<Option<E>>, hangUp: Option<nat>)
    requires Fits(hangUp, |sent|)
    ensures var o := RunSpec(runner, studio, io, arrivals, sent, hangUp);
      && (o.effects.launched.Some? <==> studio.Some? && io.createOk && io.writeOk && io.spawnOk)
      && o.effects.kills == (if o.effects.launched.Some? && !o.status.StillRunning? then 1 else 0)
      && (o.effects.launched.Some? ==> o.effects.launched.value == StudioLaunch(studio.value.applicationPath, runner.placePath, runner.debug))
  {
  }

  /** The receiver is stopped and the plugin file removed only when the
      relay ended at `Stop` with every send delivered; every error return
      skips both. */
  lemma CleanupOnlyAfterStop<E>(runner: PlaceRunner, studio: Option<StudioInstall>, io: HostIo,
                                arrivals: seq<Message<E>>, sent: seq<Option<E>>, hangUp: Option<nat>)
    requires Fits(hangUp, |sent|)
    ensures var o := RunSpec(runner, studio, io, arrivals, sent, hangUp);
      && (o.effects.receiverStopped <==> o.effects.launched.Some? && Converse(arrivals, sent, hangUp).ending == Stopped)
      && (o.effects.pluginRemoved <==> o.status == Finished)
      && (o.status == Finished <==> o.effects.receiverStopped && io.removeOk)
      && (o.status.Failed? && o.status.error != PluginRemoveFailed ==> !o.effects.receiverStopped && !o.effects.pluginRemoved)
  {
  }

  /** A finished run leaves nothing behind: Studio killed, receiver
      stopped, plugin file gone from the directory. */
  lemma FinishedRunLeavesNothing<E>(runner: PlaceRunner, studio: Option<StudioInstall>, io: HostIo,
                                    arrivals: seq<Message<E>>, sent: seq<Option<E>>, hangUp: Option<nat>, files: set<string>)
    requires Fits(hangUp, |sent|)
    ensures var o := RunSpec(runner, studio, io, arrivals, sent, hangUp);
      o.status == Finished ==>
        && o.effects.kills == 1 && o.effects.receiverStopped
        && PluginFileName(runner.port) !in PluginDirAfter(files, PluginFileName(runner.port), o.effects)
  {
  }

  /** A handshake that fails, by timeout or by a wrong first message,
      sends nothing and still kills Studio. */
  lemma HandshakeFailureSendsNothing<E>(runner: PlaceRunner, studio: Option<StudioInstall>, io: HostIo,
                                        arrivals: seq<Message<E>>, sent: seq<Option<E>>, hangUp: Option<nat>)
    requires Fits(hangUp, |sent|)
    requires studio.Some? && io.createOk && io.writeOk && io.spawnOk
    ensures var o := RunSpec(runner, studio, io, arrivals, sent, hangUp);
      && (arrivals == [] ==> o.status == Failed(StudioTimeout) && o.sent == sent && o.effects.kills == 1)
      && (arrivals != [] && !arrivals[0].Start? ==>
            o.status == Failed(InvalidFirstMessage) && o.sent == sent && o.effects.consumed == 1 && o.effects.kills == 1)
  {
  }

  /** A whole successful session: the caller receives every batch's
      events in order, then one `None`; nothing after the `Stop` is taken;
      Studio is killed, the receiver stopped and the plugin file removed. */
  lemma RunRelaysEveryBatch<E>(runner: PlaceRunner, appPath: string, body: seq<Message<E>>, tail: seq<Message<E>>,
                               sent: seq<Option<E>>, hangUp: Option<nat>)
    requires StopFree(body)
    requires Fits(hangUp, |sent| + |Events(body)| + 1)
    ensures var o := RunSpec(runner, Some(StudioInstall(appPath)), HostIo(true, true, true, true),
                             [Start] + body + [Stop] + tail, sent, hangUp);
      && o.status == Finished
      && o.sent == sent + Wrap(Events(body)) + [None]
      && o.effects.consumed == |body| + 2
      && o.effects.kills == 1 && o.effects.receiverStopped && o.effects.pluginRemoved
  {
    RelayDeliversEveryBatch(body, tail, sent, hangUp);
  }

  /** A consumer that hangs up before the whole stream is delivered
      makes `run` fail, and a run that fails on the channel did so at
      once: the consumer received exactly what fitted, the last message
      taken is the first whose delivery did not fit, Studio is killed, and
      neither the receiver is stopped nor the plugin file removed. */
  lemma ClosedChannelFailsRun<E>(runner: PlaceRunner, studio: Option<StudioInstall>, io: HostIo,
                                 arrivals: seq<Message<E>>, sent: seq<Option<E>>, hangUp: Option<nat>)
    requires Fits(hangUp, |sent|)
    ensures var o := RunSpec(runner, studio, io, arrivals, sent, hangUp);
      && ((&& studio.Some? && io.createOk && io.writeOk && io.spawnOk
           && arrivals != [] && arrivals[0].Start?
           && !Fits(hangUp, |sent + Stream(arrivals[1..])|))
          ==> o.status == Failed(ChannelClosed))
      && (o.status == Failed(ChannelClosed) ==>
        && hangUp.Some? && |o.sent| == hangUp.value
        && o.sent <= sent + Stream(arrivals[1..])
        && o.effects.consumed == Converse(arrivals, sent, hangUp).consumed
        && 1 < o.effects.consumed <= |arrivals|
        && Fits(hangUp, |sent| + |Stream(arrivals[1..o.effects.consumed - 1])|)
        && !Fits(hangUp, |sent| + |Stream(arrivals[1..o.effects.consumed])|)
        && o.effects.kills == 1 && !o.effects.receiverStopped && !o.effects.pluginRemoved)
  {
    if arrivals != [] && arrivals[0].Start? {
      RelayLoopOutput(arrivals, 1, sent, hangUp);
    }
    SendFailureEndsRelay(arrivals, sent, hangUp);
  }
}
