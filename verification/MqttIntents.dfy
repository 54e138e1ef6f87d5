/** From commands to recovery: what the requests the planners build mean for the tracked subscriptions. */
module MqttIntents {
  import opened Wrappers
  import opened Backoff
  import opened Commands
  import opened MqttPackets
  import opened MqttPlanners
  import MqttRecovery

  /**
   * Every request built from a command names one filter if it subscribes or unsubscribes, as the
   * convergence of recovery asks of the requests it is given.
   */
  lemma PlannedRequests(lib: Library, supported: seq<Version>, command: Command)
    requires NativePacketRequest(lib, supported, command).Ok?
    ensures var request := NativePacketRequest(lib, supported, command).value;
            && MqttRecovery.SingleFilter(request)
            && (request.packet.PublishPacket? <==> command.intent.Send?)
            && (request.packet.SubscribePacket? <==> command.intent.Subscribe?)
            && (request.packet.UnsubscribePacket? <==> command.intent.Unsubscribe?)
  {
  }

  lemma PlannedKeys(lib: Library, supported: seq<Version>, command: Command)
    requires NativePacketRequest(lib, supported, command).Ok?
    ensures var key := MqttRecovery.TopicKey(NativePacketRequest(lib, supported, command).value);
            && (command.intent.Subscribe? ==>
                  key == Some(SharedFilter(command.intent.channel.name, command.intent.subscription.sharedGroup)))
            && (command.intent.Unsubscribe? ==> key == Some(command.intent.channel.name))
  {
  }

  /**
   * Unsubscribing from a channel forgets the subscription to it exactly when that named no shared
   * group: an unsubscribe carries the bare topic, so a shared subscription stays desired and every
   * replay renews it.
   */
  lemma UnsubscribeForgetsExactly(lib: Library, supported: seq<Version>, subscribe: Command, unsubscribe: Command,
                                  desired: MqttRecovery.Desired)
    requires subscribe.intent.Subscribe? && unsubscribe.intent.Unsubscribe?
    requires subscribe.intent.channel.name == unsubscribe.intent.channel.name
    requires NativePacketRequest(lib, supported, subscribe).Ok? && NativePacketRequest(lib, supported, unsubscribe).Ok?
    ensures var first := NativePacketRequest(lib, supported, subscribe).value;
            var second := NativePacketRequest(lib, supported, unsubscribe).value;
            MqttRecovery.TopicKey(first).value !in MqttRecovery.Track(MqttRecovery.Track(desired, first), second)
            <==> subscribe.intent.subscription.sharedGroup.None?
  {
    PlannedRequests(lib, supported, subscribe);
    PlannedRequests(lib, supported, unsubscribe);
    PlannedKeys(lib, supported, subscribe);
    PlannedKeys(lib, supported, unsubscribe);
    var topic, group := subscribe.intent.channel.name, subscribe.intent.subscription.sharedGroup;
    assert group.Some? ==> |SharedFilter(topic, group)| > |topic|;
  }

  /** A call made with the request built from some command: publishes are not tracked, the others are. */
  ghost predicate Planned(lib: Library, supported: seq<Version>, step: MqttRecovery.Step) {
    step.CallStep? ==>
      exists command: Command ::
        NativePacketRequest(lib, supported, command) == Ok(step.request) && (step.tracked <==> !command.intent.Send?)
  }

  lemma {:induction false} PlannedRunsWellTyped(lib: Library, supported: seq<Version>, config: BrokerReconnectConfig,
                                                steps: seq<MqttRecovery.Step>)
    requires forall step <- steps :: Planned(lib, supported, step)
    ensures MqttRecovery.WellTyped(MqttRecovery.Run(config, steps).calls)
  {
    if steps != [] {
      assert forall step <- DropLast(steps) :: step in steps;
      PlannedRunsWellTyped(lib, supported, config, DropLast(steps));
      var before, step := MqttRecovery.Run(config, DropLast(steps)), Last(steps);
      assert Planned(lib, supported, step);
      match step {
        case ReplayStep(order, net) => MqttRecovery.ReplayKeepsIntents(config, before, order, net, 0);
        case CallStep(request, tracked, env, accepted) =>
          var command: Command :|
            NativePacketRequest(lib, supported, command) == Ok(request) && (tracked <==> !command.intent.Send?);
          PlannedRequests(lib, supported, command);
      }
    }
  }

  /**
   * Recovery converges for commands: over every run of calls with requests built from commands, if the
   * subscribes and unsubscribes since the oldest one still queued were queued, a successful replay
   * leaves a broker that started empty with exactly the desired filters.
   */
  lemma CommandsConverge(lib: Library, supported: seq<Version>, config: BrokerReconnectConfig,
                         steps: seq<MqttRecovery.Step>, order: seq<string>, net: nat -> MqttRecovery.Exchange)
    requires config.replaySubscriptions && forall step <- steps :: Planned(lib, supported, step)
    requires var s := MqttRecovery.Run(config, steps);
             && MqttRecovery.Enumerates(order, s.desired)
             && MqttRecovery.AllQueuedSince(s.calls,
                  MqttRecovery.TailStart(s.calls, MqttRecovery.SinceOldestIntent(s.queue)))
             && MqttRecovery.Replayed(config, s, order, net, 0).result.Ok?
    ensures var s := MqttRecovery.Run(config, steps);
            MqttRecovery.ServeAll({}, MqttRecovery.Replayed(config, s, order, net, 0).sent) == s.desired.Keys
  {
    PlannedRunsWellTyped(lib, supported, config, steps);
    MqttRecovery.RecoveryConverges(config, steps, order, net, MqttRecovery.Run(config, steps));
  }
}
