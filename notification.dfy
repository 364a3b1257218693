/**
  The notification strategies (`NotificationStrategy` and its three
  subclasses) and `NotificationContext`. A strategy only chooses the word its
  console line names, so it is a `Channel` value; the console itself is a
  `Console` object whose log records every delivery in order.
 */
module Notification {
  import opened Domain

  /** `EmailNotificationStrategy`, `SMSNotificationStrategy`, `PushNotificationStrategy`. */
  datatype Channel = Email | SMS | Push

  /** One printed notification: to whom, through which strategy, what text. */
  datatype Delivery = Delivery(recipient: string, channel: Channel, message: string)

  /** The delivery-method word each strategy prints. */
  function Tag(c: Channel): string
  {
    match c
    case Email => "email"
    case SMS => "SMS"
    case Push => "Push"
  }

  /** The console line a delivery prints. */
  function Line(d: Delivery): string
  {
    "Notification envoyée à " + d.recipient + " par " + Tag(d.channel) + ": " + d.message
  }

  /**
    Each delivery of a broadcast prints the line of the strategy's
    `envoyer_message`: the recipient's name, the strategy's word and the
    message, with the fixed words between them.
   */
  lemma BroadcastLines(c: Channel, message: string, recipients: seq<Member>)
    ensures forall k :: 0 <= k < |recipients| ==>
      Line(Broadcast(c, message, recipients)[k]) ==
        "Notification envoyée à " + recipients[k].name + " par " + Tag(c) + ": " + message
  {
  }

  /** The printed word tells the strategies apart. */
  lemma TagNamesChannel(c1: Channel, c2: Channel)
    ensures Tag(c1) == Tag(c2) <==> c1 == c2
  {
  }

  /** Standard output: the deliveries printed so far, oldest first. */
  class Console {
    var log: seq<Delivery>

    constructor()
      ensures log == []
    {
      log := [];
    }
  }

  /** The deliveries a broadcast of `message` through `c` produces: one per recipient, in list order. */
  function Broadcast(c: Channel, message: string, recipients: seq<Member>): (r: seq<Delivery>)
    ensures |r| == |recipients|
    ensures forall k :: 0 <= k < |r| ==> r[k] == Delivery(recipients[k].name, c, message)
    decreases |recipients|
  {
    if recipients == [] then []
    else
      var n := |recipients| - 1;
      Broadcast(c, message, recipients[..n]) + [Delivery(recipients[n].name, c, message)]
  }

  /** `envoyer_message` of the strategy `c`: prints one line for `recipient`. */
  method Send(c: Channel, message: string, recipient: Member, console: Console)
    modifies console
    ensures console.log == old(console.log) + [Delivery(recipient.name, c, message)]
  {
    console.log := console.log + [Delivery(recipient.name, c, message)];
  }

  /** `NotificationContext`: holds the current strategy. */
  class NotificationContext {
    var strategy: Channel

    constructor(strategy: Channel)
      ensures this.strategy == strategy
    {
      this.strategy := strategy;
    }

    /** `set_notification_strategy`: replaces the strategy. */
    method SetStrategy(strategy: Channel)
      modifies this
      ensures this.strategy == strategy
    {
      this.strategy := strategy;
    }

    /** `notifier`: sends `message` to every recipient in turn with the current strategy. */
    method Notify(message: string, recipients: seq<Member>, console: Console)
      modifies console
      ensures console.log == old(console.log) + Broadcast(strategy, message, recipients)
    {
      var k := 0;
      while k < |recipients|
        invariant 0 <= k <= |recipients|
        invariant console.log == old(console.log) + Broadcast(strategy, message, recipients[..k])
      {
        Send(strategy, message, recipients[k], console);
        assert recipients[..k + 1][..k] == recipients[..k];
        k := k + 1;
      }
      assert recipients[..k] == recipients;
    }
  }
}
