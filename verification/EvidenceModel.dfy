/** The observer's side of the evidence handoff: what a session stores and sends, given what
    storage and the broker answer. */
module EvidenceModel {
  import opened Options

  datatype Process = Process(instanceId: nat, reserved: nat, generation: nat)

  const NO_PROCESS := Process(0, 0, 0)

  predicate ValidProcess(p: Process) {
    p.instanceId != 0 && p.reserved == 0 && p.generation != 0
  }

  type Words = (nat, nat, nat)

  datatype Token = Token(broker: Process, request: Process, epoch: Words, intent: Words,
                         serial: nat, process: Process, desktop: Process)

  /** A launch scope is a token whose header can be wrong. */
  datatype Scope = Scope(headerFits: bool, token: Token)

  datatype Phase = Reserved | Offered | OtherPhase(number: int)

  datatype ResultCode = Done | Pending | OtherResult(code: int)

  /** A reply; `headerFits` covers version, sizes, and the ranges of phase and result. */
  datatype Reply = Reply(headerFits: bool, token: Token, phase: Phase, result: ResultCode)

  datatype Operation = Reserve | Offer | Acknowledge | Status

  /** The service could not be opened, the reply was lost or refused, or something came back. */
  datatype Answer = NotOpened(code: int) | Lost(code: int) | Replied(reply: Reply)

  /** Storage confirmed the token, or reported a failure and may have kept it all the same. */
  datatype Saved = Confirmed | Unconfirmed(code: int, kept: bool)

  /** What storage and broker answer to the k-th request of a session. */
  datatype Env = Env(persist: nat -> Saved, call: nat -> Answer)

  datatype Return = Invalid | Failed(code: int) | Result(result: ResultCode)

  /** What leaves a trace: a token in storage, and a request at the broker. */
  datatype Event = Stored(token: Token) | Sent(op: Operation, token: Token)

  // ---- the client's checks --------------------------------------------------

  /** `to` may follow `from`: identity is the same, what was known stays known. */
  predicate Refines(from: Token, to: Token) {
    && to.broker == from.broker && to.request == from.request
    && to.epoch == from.epoch && to.intent == from.intent
    && (from.serial != 0 ==> to.serial == from.serial)
    && (ValidProcess(from.process) ==> to.process == from.process)
    && (ValidProcess(from.desktop) ==> to.desktop == from.desktop)
  }

  predicate AcceptsReply(request: Token, reply: Reply) {
    reply.headerFits && Refines(request, reply.token)
  }

  function Prepare(scope: Scope, request: Process, intent: Words): Option<Token> {
    if !scope.headerFits || !ValidProcess(scope.token.broker) || !ValidProcess(request)
       || scope.token.epoch == (0, 0, 0) || intent == (0, 0, 0) then None
    else Some(Token(scope.token.broker, request, scope.token.epoch, intent, 0, NO_PROCESS, NO_PROCESS))
  }

  /** A request that fails the client's own check is never sent. */
  predicate MaySend(op: Operation, token: Token) {
    if op.Reserve? then token.serial == 0 else if op.Status? then true else token.serial != 0
  }

  datatype Called = Called(sent: bool, reply: Option<Reply>, failure: Return)

  function Call(op: Operation, token: Token, answer: Answer): Called {
    if !MaySend(op, token) then Called(false, None, Invalid)
    else
      match answer
      case NotOpened(code) => Called(false, None, Failed(code))
      case Lost(code) => Called(true, None, Failed(code))
      case Replied(reply) =>
        if AcceptsReply(token, reply) then Called(true, Some(reply), Invalid) else Called(true, None, Invalid)
  }

  function Sending(op: Operation, token: Token, answer: Answer): seq<Event> {
    if Call(op, token, answer).sent then [Sent(op, token)] else []
  }

  function Storing(token: Token, saved: Saved): seq<Event> {
    if saved.Confirmed? || saved.kept then [Stored(token)] else []
  }

  // ---- sessions -------------------------------------------------------------

  datatype Session = Session(events: seq<Event>, result: Return)

  /** Store the canonical token, then acknowledge it; `p` and `c` count earlier requests. */
  function CommitOffer(reply: Reply, env: Env, p: nat, c: nat): Session {
    if reply.result.OtherResult? || !reply.phase.Offered? then Session([], Result(reply.result))
    else
      var stored := Storing(reply.token, env.persist(p));
      if env.persist(p).Unconfirmed? then Session(stored, Failed(env.persist(p).code))
      else
        var ack := Call(Acknowledge, reply.token, env.call(c));
        Session(stored + Sending(Acknowledge, reply.token, env.call(c)),
                if ack.reply.Some? then Result(ack.reply.value.result) else ack.failure)
  }

  /** Offer a stored token and commit what comes back. */
  function OfferAndCommit(token: Token, env: Env, p: nat, c: nat): Session {
    var offer := Call(Offer, token, env.call(c));
    var sent := Sending(Offer, token, env.call(c));
    if offer.reply.None? then Session(sent, offer.failure)
    else
      var rest := CommitOffer(offer.reply.value, env, p, c + 1);
      Session(sent + rest.events, rest.result)
  }

  /** Intent before Reserve, serial before Offer, canonical token before ACK. */
  function Begin(scope: Scope, request: Process, intent: Words, env: Env): Session {
    var prepared := Prepare(scope, request, intent);
    if prepared.None? then Session([], Invalid)
    else
      var token := prepared.value;
      var intended := Storing(token, env.persist(0));
      if env.persist(0).Unconfirmed? then Session(intended, Failed(env.persist(0).code))
      else
        var reserve := Call(Reserve, token, env.call(0));
        var asked := intended + Sending(Reserve, token, env.call(0));
        if reserve.reply.None? then Session(asked, reserve.failure)
        else
          var reply := reserve.reply.value;
          if !reply.phase.Reserved? || reply.token.serial == 0 then Session(asked, Result(reply.result))
          else
            var reserved := asked + Storing(reply.token, env.persist(1));
            if env.persist(1).Unconfirmed? then Session(reserved, Failed(env.persist(1).code))
            else
              var rest := OfferAndCommit(reply.token, env, 2, 1);
              Session(reserved + rest.events, rest.result)
  }

  /** Ask first; a reservation that was never offered is offered under the same serial. */
  function Resume(saved: Token, env: Env): Session {
    var status := Call(Status, saved, env.call(0));
    var asked := Sending(Status, saved, env.call(0));
    if status.reply.None? then Session(asked, status.failure)
    else
      var reply := status.reply.value;
      if reply.phase.Reserved? then
        var stored := asked + Storing(reply.token, env.persist(0));
        if env.persist(0).Unconfirmed? then Session(stored, Failed(env.persist(0).code))
        else
          var rest := OfferAndCommit(reply.token, env, 1, 1);
          Session(stored + rest.events, rest.result)
      else if reply.phase.Offered? then
        var rest := CommitOffer(reply, env, 0, 1);
        Session(asked + rest.events, rest.result)
      else Session(asked, Result(reply.result))
  }
}
