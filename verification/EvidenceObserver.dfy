/** The example observer: it overwrites its saved token between requests to storage and broker. */
module EvidenceObservers {
  import opened Options
  import opened EvidenceModel

  class Observer {
    const env: Env
    /** Requests to storage and to the broker so far in this session. */
    var persists: nat
    var calls: nat
    /** The token in memory, and the last reply. */
    var saved: Token
    var reply: Reply
    /** What reached storage and the broker. */
    var trace: seq<Event>

    constructor (env: Env, saved: Token, reply: Reply)
      ensures this.env == env && this.saved == saved && trace == [] && persists == 0 && calls == 0
    {
      this.env, this.saved, this.reply := env, saved, reply;
      persists, calls, trace := 0, 0, [];
    }

    method Persist() returns (failure: Option<int>)
      modifies `persists, `trace
      ensures persists == old(persists) + 1
      ensures trace == old(trace) + Storing(saved, env.persist(old(persists)))
      ensures failure == match env.persist(old(persists)) case Confirmed => None case Unconfirmed(code, _) => Some(code)
    {
      var answer := env.persist(persists);
      persists := persists + 1;
      trace := trace + Storing(saved, answer);
      failure := match answer case Confirmed => None case Unconfirmed(code, _) => Some(code);
    }

    /** One broker request with the saved token; the reply is overwritten only by an accepted one. */
    method Request(op: Operation) returns (failure: Option<Return>)
      modifies `calls, `reply, `trace
      ensures var called := EvidenceModel.Call(op, saved, env.call(old(calls)));
              && trace == old(trace) + Sending(op, saved, env.call(old(calls)))
              && failure == (if called.reply.Some? then None else Some(called.failure))
              && reply == (if called.reply.Some? then called.reply.value else old(reply))
      ensures MaySend(op, saved) ==> calls == old(calls) + 1
    {
      failure := None;
      if (op.Reserve? && saved.serial != 0) || ((op.Offer? || op.Acknowledge?) && saved.serial == 0) {
        return Some(Invalid);
      }
      var answer := env.call(calls);
      calls := calls + 1;
      trace := trace + Sending(op, saved, answer);
      match answer {
        case NotOpened(code) => failure := Some(Failed(code));
        case Lost(code) => failure := Some(Failed(code));
        case Replied(value) =>
          if value.headerFits && Refines(saved, value.token) {
            reply := value;
          } else {
            failure := Some(Invalid);
          }
      }
    }

    method CommitOffer() returns (rc: Return)
      modifies this
      ensures Session(trace, rc)
           == var rest := EvidenceModel.CommitOffer(old(reply), env, old(persists), old(calls));
              Session(old(trace) + rest.events, rest.result)
    {
      hide Refines;
      saved := reply.token;
      if reply.result.OtherResult? || !reply.phase.Offered? {
        return Result(reply.result);
      }
      var unsaved := Persist();
      if unsaved.Some? {
        return Failed(unsaved.value);
      }
      var failed := Request(Acknowledge);
      if failed.Some? {
        return failed.value;
      }
      return Result(reply.result);
    }

    method OfferAndCommit() returns (rc: Return)
      modifies this
      ensures Session(trace, rc)
           == var rest := EvidenceModel.OfferAndCommit(old(saved), env, old(persists), old(calls));
              Session(old(trace) + rest.events, rest.result)
    {
      hide Refines, EvidenceModel.CommitOffer;
      var failed := Request(Offer);
      if failed.Some? {
        return failed.value;
      }
      rc := CommitOffer();
    }

    method Begin(scope: Scope, request: Process, intent: Words) returns (rc: Return)
      requires trace == [] && persists == 0 && calls == 0
      modifies this
      ensures Session(trace, rc) == EvidenceModel.Begin(scope, request, intent, env)
    {
      hide Refines, EvidenceModel.OfferAndCommit;
      var prepared := Prepare(scope, request, intent);
      if prepared.None? {
        return Invalid;
      }
      saved := prepared.value;
      var unsaved := Persist();
      if unsaved.Some? {
        return Failed(unsaved.value);
      }
      var failed := Request(Reserve);
      if failed.Some? {
        return failed.value;
      }
      if !reply.phase.Reserved? || reply.token.serial == 0 {
        return Result(reply.result);
      }
      saved := reply.token;
      unsaved := Persist();
      if unsaved.Some? {
        return Failed(unsaved.value);
      }
      rc := OfferAndCommit();
    }

    method Resume() returns (rc: Return)
      requires trace == [] && persists == 0 && calls == 0
      modifies this
      ensures Session(trace, rc) == EvidenceModel.Resume(old(saved), env)
    {
      hide Refines, EvidenceModel.OfferAndCommit, EvidenceModel.CommitOffer;
      var failed := Request(Status);
      if failed.Some? {
        return failed.value;
      }
      if reply.phase.Reserved? {
        saved := reply.token;
        var unsaved := Persist();
        if unsaved.Some? {
          return Failed(unsaved.value);
        }
        rc := OfferAndCommit();
      } else if reply.phase.Offered? {
        rc := CommitOffer();
      } else {
        saved := reply.token;
        rc := Result(reply.result);
      }
    }
  }
}
