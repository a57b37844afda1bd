/** How a consumed message is settled once its handler has returned or thrown. */
module Settlement {
  import opened Lifecycle
  import opened Protocol
  import C = Consumer

  datatype Failure = DomainError(why: Rejection) | SyntaxError | OtherError

  datatype Handled = Returned | Threw(error: Failure)

  /** Failures that would repeat on every redelivery: a broken domain rule, or a body that does not parse. */
  predicate IsPermanentFailure(error: Failure) {
    error.DomainError? || error.SyntaxError?
  }

  function ResultOf(handled: Handled): C.Result {
    match handled
    case Returned => C.Success
    case Threw(error) => if IsPermanentFailure(error) then C.PermanentFailure else C.TransientFailure
  }

  /** How a use case that gave this reply looks to the settlement: it returned, or threw what was wrong. */
  function HandledBy(reply: Reply): Handled {
    match reply
    case Refused(why) => Threw(DomainError(why))
    case Errored(_) => Threw(OtherError)
    case Conflicted => Threw(OtherError)
    case Created(_) => Returned
    case Replayed(_) => Returned
    case Answered(_) => Returned
  }

  /** The consumer protocol and the settlement code judge every handling alike. */
  lemma HandlingsAreJudgedAlike(db: Protocol.State, t: nat, error: Failure)
    requires t in db.txns && db.txns[t].pc.Done?
    ensures C.ResultOf(db, C.Running(t)) == ResultOf(HandledBy(db.txns[t].pc.reply))
    ensures error.DomainError? || error.SyntaxError? ==> C.ResultOf(db, C.Rejected) == ResultOf(Threw(error))
  {
  }

  /** The consume channel as the broker keeps it; `settled` is history. */
  class Channel {
    var bodies: map<nat, C.Body>
    var ready: set<nat>
    var inFlight: map<nat, C.Handling>
    var acked: set<nat>
    var dead: set<nat>
    ghost var settled: seq<C.Settlement>

    constructor (bodies: map<nat, C.Body>)
      ensures this.bodies == bodies && ready == bodies.Keys && inFlight == map[] && acked == {} && dead == {} && settled == []
    {
      this.bodies, ready, inFlight, acked, dead, settled := bodies, bodies.Keys, map[], {}, {}, [];
    }

    method Ack(m: nat)
      requires m in inFlight
      modifies this
      ensures inFlight == old(inFlight) - {m} && acked == old(acked) + {m}
      ensures settled == old(settled) + [C.Settlement(m, old(inFlight)[m], C.Acked)]
      ensures bodies == old(bodies) && ready == old(ready) && dead == old(dead)
    {
      settled := settled + [C.Settlement(m, inFlight[m], C.Acked)];
      inFlight, acked := inFlight - {m}, acked + {m};
    }

    /** Without requeue the broker's policy dead-letters the message. */
    method Nack(m: nat, requeue: bool)
      requires m in inFlight
      modifies this
      ensures inFlight == old(inFlight) - {m}
      ensures ready == if requeue then old(ready) + {m} else old(ready)
      ensures dead == if requeue then old(dead) else old(dead) + {m}
      ensures settled == old(settled) + [C.Settlement(m, old(inFlight)[m], if requeue then C.Requeued else C.DeadLettered)]
      ensures bodies == old(bodies) && acked == old(acked)
    {
      settled := settled + [C.Settlement(m, inFlight[m], if requeue then C.Requeued else C.DeadLettered)];
      inFlight := inFlight - {m};
      if requeue {
        ready := ready + {m};
      } else {
        dead := dead + {m};
      }
    }
  }

  class Settler {
    const channel: Channel
    var consumedAcked: nat
    var consumedDeadLettered: nat

    constructor (channel: Channel)
      ensures this.channel == channel && consumedAcked == 0 && consumedDeadLettered == 0
    {
      this.channel, consumedAcked, consumedDeadLettered := channel, 0, 0;
    }

    ghost function Mail(): C.Mail
      reads this, channel
    {
      C.Mail(channel.bodies, channel.ready, channel.inFlight, channel.acked, channel.dead,
             consumedAcked + consumedDeadLettered, channel.settled)
    }

    method SettleFailedMessage(m: nat, error: Failure)
      requires m in channel.inFlight
      modifies channel
      ensures Mail().(consumed := 0)
              == C.Settled(old(Mail()), m, old(channel.inFlight)[m], C.SettlementFor(ResultOf(Threw(error)))).(consumed := 0)
    {
      if IsPermanentFailure(error) {
        channel.Nack(m, false);
        return;
      }
      channel.Nack(m, true);
    }

    /** The single settlement path: exactly the settlement of the consumer protocol, counted once. */
    method SettleMessage(m: nat, handled: Handled)
      requires m in channel.inFlight
      modifies this, channel
      ensures Mail() == C.Settled(old(Mail()), m, old(channel.inFlight)[m], C.SettlementFor(ResultOf(handled)))
      ensures channel.inFlight == old(channel.inFlight) - {m} && channel.bodies == old(channel.bodies)
      ensures handled.Returned? ==>
                && channel.acked == old(channel.acked) + {m}
                && channel.ready == old(channel.ready) && channel.dead == old(channel.dead)
                && consumedAcked == old(consumedAcked) + 1 && consumedDeadLettered == old(consumedDeadLettered)
      ensures handled.Threw? && (handled.error.DomainError? || handled.error.SyntaxError?) ==>
                && channel.dead == old(channel.dead) + {m}
                && channel.ready == old(channel.ready) && channel.acked == old(channel.acked)
                && consumedAcked == old(consumedAcked) && consumedDeadLettered == old(consumedDeadLettered) + 1
      ensures handled.Threw? && handled.error.OtherError? ==>
                && channel.ready == old(channel.ready) + {m}
                && channel.dead == old(channel.dead) && channel.acked == old(channel.acked)
                && consumedAcked == old(consumedAcked) && consumedDeadLettered == old(consumedDeadLettered)
    {
      if handled.Threw? {
        SettleFailedMessage(m, handled.error);
        if IsPermanentFailure(handled.error) {
          consumedDeadLettered := consumedDeadLettered + 1;
        }
        return;
      }
      channel.Ack(m);
      consumedAcked := consumedAcked + 1;
    }
  }
}
