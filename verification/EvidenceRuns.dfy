/** Every history of one begin and any resumes, with crashes anywhere. */
module EvidenceRuns {
  import opened Options
  import opened EvidenceModel

  /** The token that storage holds after a history. */
  function LastStored(h: seq<Event>): Option<Token> {
    if h == [] then None
    else if h[|h| - 1].Stored? then Some(h[|h| - 1].token)
    else LastStored(h[..|h| - 1])
  }

  predicate NothingSent(h: seq<Event>) {
    forall i | 0 <= i < |h| :: h[i].Stored?
  }

  /** The rule for the event after a history: a stored token refines the one before it, a
      request carries exactly the token in storage, and only the first request reserves. */
  predicate Allowed(h: seq<Event>, e: Event) {
    match e
    case Stored(token) =>
      (match LastStored(h)
       case None => token.serial == 0
       case Some(last) => Refines(last, token))
    case Sent(op, token) =>
      LastStored(h) == Some(token) && MaySend(op, token) && (op.Reserve? ==> NothingSent(h))
  }

  predicate Lawful(h: seq<Event>) {
    forall k | 0 <= k < |h| :: Allowed(h[..k], h[k])
  }

  // ---- histories ------------------------------------------------------------

  lemma StoredLast(h: seq<Event>, e: Event)
    ensures LastStored(h + [e]) == if e.Stored? then Some(e.token) else LastStored(h)
  {
    assert (h + [e])[..|h|] == h;
  }

  lemma LawfulPush(h: seq<Event>, e: Event)
    requires Lawful(h) && Allowed(h, e)
    ensures Lawful(h + [e])
  {
    forall k | 0 <= k < |h| + 1
      ensures Allowed((h + [e])[..k], (h + [e])[k])
    {
      assert (h + [e])[..k] == h[..k];
      assert h[..|h|] == h;
    }
    hide Allowed;
  }

  /** A crash leaves a beginning of the history, which is lawful too. */
  lemma LawfulPrefix(h: seq<Event>, n: nat)
    requires Lawful(h) && n <= |h|
    ensures Lawful(h[..n])
  {
    forall k | 0 <= k < n
      ensures Allowed(h[..n][..k], h[..n][k])
    {
      assert h[..n][..k] == h[..k];
    }
    hide Allowed;
  }

  /** Storing a token that refines the stored one. */
  lemma StoringLawful(h: seq<Event>, token: Token, saved: Saved)
    requires Lawful(h) && Allowed(h, Stored(token))
    ensures Lawful(h + Storing(token, saved))
    ensures saved.Confirmed? ==> LastStored(h + Storing(token, saved)) == Some(token)
  {
    assert h + [] == h;
    LawfulPush(h, Stored(token));
    StoredLast(h, Stored(token));
    hide Lawful, Allowed, LastStored;
  }

  /** Sending the stored token. */
  lemma SendingLawful(h: seq<Event>, op: Operation, token: Token, answer: Answer)
    requires Lawful(h) && LastStored(h) == Some(token) && (op.Reserve? ==> NothingSent(h))
    ensures Lawful(h + Sending(op, token, answer))
    ensures LastStored(h + Sending(op, token, answer)) == Some(token)
    ensures Call(op, token, answer).reply.Some? ==> Refines(token, Call(op, token, answer).reply.value.token)
  {
    assert h + [] == h;
    if Call(op, token, answer).sent {
      LawfulPush(h, Sent(op, token));
      StoredLast(h, Sent(op, token));
    }
    hide Lawful, LastStored, NothingSent, Refines;
  }

  lemma Assoc(h: seq<Event>, a: seq<Event>, b: seq<Event>)
    ensures h + (a + b) == h + a + b
  {
  }

  // ---- sessions -------------------------------------------------------------

  lemma CommitOfferLawful(h: seq<Event>, reply: Reply, env: Env, p: nat, c: nat)
    requires Lawful(h) && LastStored(h).Some? && Refines(LastStored(h).value, reply.token)
    ensures Lawful(h + CommitOffer(reply, env, p, c).events)
  {
    hide Lawful, LastStored, Refines;
    assert h + [] == h;
    StoringLawful(h, reply.token, env.persist(p));
    if env.persist(p).Confirmed? {
      SendingLawful(h + Storing(reply.token, env.persist(p)), Acknowledge, reply.token, env.call(c));
      Assoc(h, Storing(reply.token, env.persist(p)), Sending(Acknowledge, reply.token, env.call(c)));
    }
    hide Storing, Sending, Call;
  }

  lemma OfferAndCommitLawful(h: seq<Event>, token: Token, env: Env, p: nat, c: nat)
    requires Lawful(h) && LastStored(h) == Some(token)
    ensures Lawful(h + OfferAndCommit(token, env, p, c).events)
  {
    hide Lawful, LastStored, Refines, CommitOffer, Sending, Call;
    SendingLawful(h, Offer, token, env.call(c));
    var offer := Call(Offer, token, env.call(c));
    if offer.reply.Some? {
      var sent := Sending(Offer, token, env.call(c));
      CommitOfferLawful(h + sent, offer.reply.value, env, p, c + 1);
      Assoc(h, sent, CommitOffer(offer.reply.value, env, p, c + 1).events);
    }
  }

  /** Everything a first session does is lawful. */
  lemma BeginLawful(scope: Scope, request: Process, intent: Words, env: Env)
    ensures Lawful(Begin(scope, request, intent, env).events)
  {
    var prepared := Prepare(scope, request, intent);
    if prepared.Some? {
      var token := prepared.value;
      assert Lawful([]) && Allowed([], Stored(token));
      StoringLawful([], token, env.persist(0));
      var intended := Storing(token, env.persist(0));
      assert [] + intended == intended && NothingSent(intended);
      hide Lawful, LastStored, Prepare, OfferAndCommit, Storing, Sending, Call;
      if env.persist(0).Confirmed? {
        SendingLawful(intended, Reserve, token, env.call(0));
        var asked := intended + Sending(Reserve, token, env.call(0));
        var reserve := Call(Reserve, token, env.call(0));
        if reserve.reply.Some? {
          var next := reserve.reply.value.token;
          StoringLawful(asked, next, env.persist(1));
          if env.persist(1).Confirmed? {
            OfferAndCommitLawful(asked + Storing(next, env.persist(1)), next, env, 2, 1);
          }
        }
      }
    }
  }

  /** Everything a later session adds is lawful. */
  lemma ResumeLawful(h: seq<Event>, env: Env)
    requires Lawful(h) && LastStored(h).Some?
    ensures Lawful(h + Resume(LastStored(h).value, env).events)
  {
    hide Lawful, LastStored, OfferAndCommit, CommitOffer, Storing, Sending, Call;
    var saved := LastStored(h).value;
    SendingLawful(h, Status, saved, env.call(0));
    var asked := Sending(Status, saved, env.call(0));
    var status := Call(Status, saved, env.call(0));
    if status.reply.Some? {
      var reply := status.reply.value;
      if reply.phase.Reserved? {
        var stored := Storing(reply.token, env.persist(0));
        StoringLawful(h + asked, reply.token, env.persist(0));
        Assoc(h, asked, stored);
        if env.persist(0).Confirmed? {
          OfferAndCommitLawful(h + asked + stored, reply.token, env, 1, 1);
          Assoc(h, asked + stored, OfferAndCommit(reply.token, env, 1, 1).events);
        }
      } else if reply.phase.Offered? {
        CommitOfferLawful(h + asked, reply, env, 0, 1);
        Assoc(h, asked, CommitOffer(reply, env, 0, 1).events);
      }
    }
  }

  // ---- runs -----------------------------------------------------------------

  /** A session that crashes after `survives` of its events, if it has that many. */
  datatype Visit = Visit(env: Env, survives: nat)

  function Cut(events: seq<Event>, survives: nat): seq<Event> {
    if survives < |events| then events[..survives] else events
  }

  /** Resumes from whatever token storage holds; without one there is nothing to resume. */
  function Visits(h: seq<Event>, visits: seq<Visit>): seq<Event>
    decreases |visits|
  {
    if visits == [] || LastStored(h).None? then h
    else Visits(h + Cut(Resume(LastStored(h).value, visits[0].env).events, visits[0].survives), visits[1..])
  }

  /** One begin and then resumes, each cut short by a crash anywhere. */
  function History(scope: Scope, request: Process, intent: Words, first: Visit, visits: seq<Visit>): seq<Event> {
    Visits(Cut(Begin(scope, request, intent, first.env).events, first.survives), visits)
  }

  lemma CutLawful(h: seq<Event>, events: seq<Event>, survives: nat)
    requires Lawful(h + events)
    ensures Lawful(h + Cut(events, survives))
  {
    if survives < |events| {
      LawfulPrefix(h + events, |h| + survives);
      assert (h + events)[..|h| + survives] == h + events[..survives];
    }
    hide Lawful;
  }

  lemma {:induction false} VisitsLawful(h: seq<Event>, visits: seq<Visit>)
    requires Lawful(h)
    ensures Lawful(Visits(h, visits))
    decreases |visits|
  {
    if visits != [] && LastStored(h).Some? {
      hide Lawful, LastStored, Resume, Cut;
      var events := Resume(LastStored(h).value, visits[0].env).events;
      ResumeLawful(h, visits[0].env);
      CutLawful(h, events, visits[0].survives);
      VisitsLawful(h + Cut(events, visits[0].survives), visits[1..]);
    }
  }

  lemma HistoryLawful(scope: Scope, request: Process, intent: Words, first: Visit, visits: seq<Visit>)
    ensures Lawful(History(scope, request, intent, first, visits))
  {
    hide Lawful, Begin, Visits, Cut;
    var events := Begin(scope, request, intent, first.env).events;
    BeginLawful(scope, request, intent, first.env);
    assert [] + events == events && [] + Cut(events, first.survives) == Cut(events, first.survives);
    CutLawful([], events, first.survives);
    VisitsLawful(Cut(events, first.survives), visits);
  }

  // ---- the claims -----------------------------------------------------------

  lemma RefinesThen(a: Token, b: Token, c: Token)
    requires Refines(a, b) && Refines(b, c)
    ensures Refines(a, c)
  {
  }

  /** The last stored token refines every token stored before. */
  lemma {:induction false} LastRefines(h: seq<Event>, i: nat)
    requires Lawful(h) && i < |h| && h[i].Stored?
    ensures LastStored(h).Some? && Refines(h[i].token, LastStored(h).value)
    decreases |h|
  {
    var n := |h| - 1;
    LawfulPrefix(h, n);
    if i < n {
      LastRefines(h[..n], i);
      if h[n].Stored? {
        assert Allowed(h[..n], h[n]);
        RefinesThen(h[i].token, LastStored(h[..n]).value, h[n].token);
      }
    }
    hide Lawful, Refines;
  }

  lemma {:induction false} LastIsStored(h: seq<Event>) returns (i: nat)
    requires LastStored(h).Some?
    ensures i < |h| && h[i] == Stored(LastStored(h).value)
    ensures forall k | i < k < |h| :: h[k].Sent?
  {
    if h[|h| - 1].Stored? {
      i := |h| - 1;
    } else {
      i := LastIsStored(h[..|h| - 1]);
    }
  }

  /** Once stored, broker, request, epoch and intent never change, and neither does a serial
      that is not zero or a valid process. */
  lemma StoredNeverChanges(scope: Scope, request: Process, intent: Words, first: Visit, visits: seq<Visit>, i: nat, j: nat)
    requires var h := History(scope, request, intent, first, visits);
             i < j < |h| && h[i].Stored? && h[j].Stored?
    ensures var h := History(scope, request, intent, first, visits);
            var a, b := h[i].token, h[j].token;
            && b.broker == a.broker && b.request == a.request && b.epoch == a.epoch && b.intent == a.intent
            && (a.serial != 0 ==> b.serial == a.serial)
            && (ValidProcess(a.process) ==> b.process == a.process)
            && (ValidProcess(a.desktop) ==> b.desktop == a.desktop)
  {
    var h := History(scope, request, intent, first, visits);
    HistoryLawful(scope, request, intent, first, visits);
    hide History;
    LawfulPrefix(h, j + 1);
    LastRefines(h[..j + 1], i);
    hide Lawful;
    assert h[..j + 1][j] == h[j];
  }

  /** Every request carries exactly the token stored last before it; an offer or an
      acknowledgement has a serial, and nothing is reserved twice. */
  lemma SentWasStored(scope: Scope, request: Process, intent: Words, first: Visit, visits: seq<Visit>, j: nat)
    returns (i: nat)
    requires var h := History(scope, request, intent, first, visits); j < |h| && h[j].Sent?
    ensures var h := History(scope, request, intent, first, visits);
            && i < j && h[i] == Stored(h[j].token)
            && (forall k | i < k < j :: h[k].Sent?)
            && (h[j].op.Offer? || h[j].op.Acknowledge? ==> h[j].token.serial != 0)
            && (h[j].op.Reserve? ==> forall k | 0 <= k < j :: h[k].Stored?)
  {
    var h := History(scope, request, intent, first, visits);
    HistoryLawful(scope, request, intent, first, visits);
    hide History;
    assert Allowed(h[..j], h[j]);
    hide Lawful;
    i := LastIsStored(h[..j]);
    hide LastStored;
    assert h[..j][i] == h[i];
    forall k | i < k < j
      ensures h[k].Sent?
    {
      assert h[..j][k] == h[k];
    }
    forall k | 0 <= k < j && h[j].op.Reserve?
      ensures h[k].Stored?
    {
      assert h[..j][k] == h[k];
    }
  }

  lemma CommitCompletes(b: Reply, env: Env, p: nat, c: nat, acked: Reply)
    requires env.persist(p).Confirmed? && env.call(c) == Replied(acked) && AcceptsReply(b.token, acked)
    requires b.phase.Offered? && !b.result.OtherResult? && b.token.serial != 0
    ensures CommitOffer(b, env, p, c)
         == Session([Stored(b.token), Sent(Acknowledge, b.token)], Result(acked.result))
  {
    assert [Stored(b.token)] + [Sent(Acknowledge, b.token)] == [Stored(b.token), Sent(Acknowledge, b.token)];
    hide Refines;
  }

  lemma OfferCompletes(token: Token, env: Env, p: nat, c: nat, b: Reply, acked: Reply)
    requires token.serial != 0 && env.call(c) == Replied(b) && AcceptsReply(token, b)
    requires env.persist(p).Confirmed? && env.call(c + 1) == Replied(acked) && AcceptsReply(b.token, acked)
    requires b.phase.Offered? && !b.result.OtherResult?
    ensures OfferAndCommit(token, env, p, c)
         == Session([Sent(Offer, token), Stored(b.token), Sent(Acknowledge, b.token)], Result(acked.result))
  {
    CommitCompletes(b, env, p, c + 1, acked);
    hide CommitOffer;
    assert [Sent(Offer, token)] + [Stored(b.token), Sent(Acknowledge, b.token)]
        == [Sent(Offer, token), Stored(b.token), Sent(Acknowledge, b.token)];
  }

  /** With storage and broker working, a first session stores and sends in this order. */
  lemma BeginCompletes(scope: Scope, request: Process, intent: Words, env: Env, token: Token, a: Reply, b: Reply, c: Reply)
    requires Prepare(scope, request, intent) == Some(token)
    requires env.persist(0).Confirmed? && env.persist(1).Confirmed? && env.persist(2).Confirmed?
    requires env.call(0) == Replied(a) && AcceptsReply(token, a) && a.phase.Reserved? && a.token.serial != 0
    requires env.call(1) == Replied(b) && AcceptsReply(a.token, b) && b.phase.Offered? && !b.result.OtherResult?
    requires env.call(2) == Replied(c) && AcceptsReply(b.token, c)
    ensures Begin(scope, request, intent, env)
         == Session([Stored(token), Sent(Reserve, token), Stored(a.token), Sent(Offer, a.token),
                     Stored(b.token), Sent(Acknowledge, b.token)], Result(c.result))
  {
    assert token.serial == 0;
    OfferCompletes(a.token, env, 2, 1, b, c);
    hide Prepare, OfferAndCommit, Refines;
    assert [Stored(token)] + [Sent(Reserve, token)] + [Stored(a.token)]
           + [Sent(Offer, a.token), Stored(b.token), Sent(Acknowledge, b.token)]
        == [Stored(token), Sent(Reserve, token), Stored(a.token), Sent(Offer, a.token),
            Stored(b.token), Sent(Acknowledge, b.token)];
  }

  /** A session that resumes a reservation offers it under the serial the broker names, and under
      the stored serial if there was one. */
  lemma ResumeCompletes(saved: Token, env: Env, a: Reply, b: Reply, c: Reply)
    requires env.persist(0).Confirmed? && env.persist(1).Confirmed?
    requires env.call(0) == Replied(a) && AcceptsReply(saved, a) && a.phase.Reserved? && a.token.serial != 0
    requires env.call(1) == Replied(b) && AcceptsReply(a.token, b) && b.phase.Offered? && !b.result.OtherResult?
    requires env.call(2) == Replied(c) && AcceptsReply(b.token, c)
    ensures Resume(saved, env)
         == Session([Sent(Status, saved), Stored(a.token), Sent(Offer, a.token),
                     Stored(b.token), Sent(Acknowledge, b.token)], Result(c.result))
    ensures saved.serial != 0 ==> a.token.serial == saved.serial
  {
    OfferCompletes(a.token, env, 1, 1, b, c);
    hide OfferAndCommit;
    assert [Sent(Status, saved)] + [Stored(a.token)]
           + [Sent(Offer, a.token), Stored(b.token), Sent(Acknowledge, b.token)]
        == [Sent(Status, saved), Stored(a.token), Sent(Offer, a.token),
            Stored(b.token), Sent(Acknowledge, b.token)];
  }

  /** Where the broker already has the offer, a resumed session commits it: it stores the token the
      broker names and acknowledges it, and reserves and offers nothing. */
  lemma ResumeCommits(saved: Token, env: Env, a: Reply, c: Reply)
    requires env.persist(0).Confirmed?
    requires env.call(0) == Replied(a) && AcceptsReply(saved, a) && a.phase.Offered?
    requires !a.result.OtherResult? && a.token.serial != 0
    requires env.call(1) == Replied(c) && AcceptsReply(a.token, c)
    ensures Resume(saved, env)
         == Session([Sent(Status, saved), Stored(a.token), Sent(Acknowledge, a.token)], Result(c.result))
  {
    CommitCompletes(a, env, 0, 1, c);
    hide CommitOffer, Refines;
    assert [Sent(Status, saved)] + [Stored(a.token), Sent(Acknowledge, a.token)]
        == [Sent(Status, saved), Stored(a.token), Sent(Acknowledge, a.token)];
  }

  /** An offer with another result, and a handoff in any other phase, is only looked at. */
  lemma ResumeObserves(saved: Token, env: Env, a: Reply)
    requires env.call(0) == Replied(a) && AcceptsReply(saved, a)
    requires a.phase.OtherPhase? || (a.phase.Offered? && a.result.OtherResult?)
    ensures Resume(saved, env) == Session([Sent(Status, saved)], Result(a.result))
  {
    hide Refines;
    assert [Sent(Status, saved)] + [] == [Sent(Status, saved)];
  }

  // ---- where a session stops ------------------------------------------------

  /** The reply to a request for this token was taken. */
  predicate Heard(token: Token, answer: Answer) {
    answer.Replied? && AcceptsReply(token, answer.reply)
  }

  predicate Accepted(token: Token, answer: Answer, phase: Phase) {
    Heard(token, answer) && answer.reply.phase == phase
  }

  predicate Committable(token: Token, answer: Answer) {
    Accepted(token, answer, Offered) && !answer.reply.result.OtherResult?
  }

  /** What a request without an accepted reply returns, and what one with a reply names. */
  function NotHeard(answer: Answer): Return {
    match answer
    case NotOpened(code) => Failed(code)
    case Lost(code) => Failed(code)
    case Replied(_) => Invalid
  }

  function Told(answer: Answer): Return {
    if answer.Replied? then Result(answer.reply.result) else NotHeard(answer)
  }

  function Named(token: Token, answer: Answer): Token {
    if answer.Replied? then answer.reply.token else token
  }

  /** One thing a session relies on, and what it returns without it. */
  datatype Reliance = Reliance(met: bool, otherwise: Return)

  function Save(saved: Saved): Reliance {
    Reliance(saved.Confirmed?, if saved.Unconfirmed? then Failed(saved.code) else Invalid)
  }

  function Hear(token: Token, answer: Answer): Reliance {
    Reliance(Heard(token, answer), NotHeard(answer))
  }

  function Serial(token: Token): Reliance {
    Reliance(token.serial != 0, Invalid)
  }

  function Commit(token: Token, answer: Answer): Reliance {
    Reliance(Committable(token, answer), Told(answer))
  }

  /** What the first of them that is not met returns, and `last` if all are. */
  function FirstUnmet(list: seq<Reliance>, last: Return): Return {
    if list == [] then last
    else if !list[0].met then list[0].otherwise
    else FirstUnmet(list[1..], last)
  }

  /** A session that has come past its i-th event has met what that event waited for. */
  lemma BeginStops(scope: Scope, request: Process, intent: Words, env: Env, token: Token)
    requires Prepare(scope, request, intent) == Some(token)
    ensures var events := Begin(scope, request, intent, env).events;
            && |events| <= 6
            && (|events| > 1 ==> env.persist(0).Confirmed?)
            && (|events| > 2 ==> Accepted(token, env.call(0), Reserved) && events[2].token.serial != 0)
            && (|events| > 3 ==> env.persist(1).Confirmed?)
            && (|events| > 4 ==> Committable(events[3].token, env.call(1)))
            && (|events| > 5 ==> env.persist(2).Confirmed?)
  {
    assert token.serial == 0;
    hide Refines, Prepare;
  }

  /** An offered token is committed: saved, and acknowledged under its serial. */
  function CommitNeeds(token: Token, saved: Saved, acked: Answer): seq<Reliance> {
    [Save(saved), Serial(token), Hear(token, acked)]
  }

  /** A saved reservation is offered under its serial, and what comes back is committed. */
  function OfferNeeds(token: Token, offered: Answer, saved: Saved, acked: Answer): seq<Reliance> {
    [Serial(token), Hear(token, offered), Commit(token, offered)] + CommitNeeds(Named(token, offered), saved, acked)
  }

  lemma Needs(r: Reliance, rest: seq<Reliance>, last: Return)
    ensures FirstUnmet([r] + rest, last) == if r.met then FirstUnmet(rest, last) else r.otherwise
  {
    assert ([r] + rest)[1..] == rest;
  }

  lemma FourNeeds(a: Reliance, b: Reliance, c: Reliance, d: Reliance, rest: seq<Reliance>, last: Return)
    ensures FirstUnmet([a, b, c, d] + rest, last)
         == if !a.met then a.otherwise else if !b.met then b.otherwise else if !c.met then c.otherwise
            else if !d.met then d.otherwise else FirstUnmet(rest, last)
  {
    assert [a, b, c, d] + rest == [a] + ([b] + ([c] + ([d] + rest)));
    Needs(a, [b] + ([c] + ([d] + rest)), last);
    Needs(b, [c] + ([d] + rest), last);
    Needs(c, [d] + rest, last);
    Needs(d, rest, last);
    hide FirstUnmet;
  }

  lemma CommitReturns(reply: Reply, env: Env, p: nat, c: nat)
    requires reply.phase.Offered? && !reply.result.OtherResult?
    ensures CommitOffer(reply, env, p, c).result
         == FirstUnmet(CommitNeeds(reply.token, env.persist(p), env.call(c)), Told(env.call(c)))
  {
    hide Refines;
    var heard := Hear(reply.token, env.call(c));
    var last := Told(env.call(c));
    Needs(heard, [], last);
    Needs(Serial(reply.token), [heard], last);
    Needs(Save(env.persist(p)), [Serial(reply.token), heard], last);
    assert [heard] + [] == [heard];
    hide FirstUnmet;
  }

  lemma OfferReturns(token: Token, env: Env, p: nat, c: nat)
    ensures OfferAndCommit(token, env, p, c).result
         == FirstUnmet(OfferNeeds(token, env.call(c), env.persist(p), env.call(c + 1)), Told(env.call(c + 1)))
  {
    hide Refines;
    var last := Told(env.call(c + 1));
    var rest := CommitNeeds(Named(token, env.call(c)), env.persist(p), env.call(c + 1));
    Needs(Commit(token, env.call(c)), rest, last);
    Needs(Hear(token, env.call(c)), [Commit(token, env.call(c))] + rest, last);
    Needs(Serial(token), [Hear(token, env.call(c)), Commit(token, env.call(c))] + rest, last);
    hide FirstUnmet, CommitNeeds;
    assert OfferNeeds(token, env.call(c), env.persist(p), env.call(c + 1))
        == [Serial(token)] + ([Hear(token, env.call(c)), Commit(token, env.call(c))] + rest);
    assert [Hear(token, env.call(c)), Commit(token, env.call(c))] + rest
        == [Hear(token, env.call(c))] + ([Commit(token, env.call(c))] + rest);
    if Committable(token, env.call(c)) {
      CommitReturns(env.call(c).reply, env, p, c + 1);
    }
  }

  /** A first session returns what the first failed save, lost reply or other answer says. */
  lemma BeginReturns(scope: Scope, request: Process, intent: Words, env: Env, token: Token, a: Token)
    requires Prepare(scope, request, intent) == Some(token) && a == Named(token, env.call(0))
    ensures Begin(scope, request, intent, env).result
         == FirstUnmet([Save(env.persist(0)), Hear(token, env.call(0)),
                        Reliance(Accepted(token, env.call(0), Reserved) && a.serial != 0, Told(env.call(0))),
                        Save(env.persist(1))] + OfferNeeds(a, env.call(1), env.persist(2), env.call(2)),
                       Told(env.call(2)))
  {
    assert token.serial == 0;
    hide Prepare, OfferNeeds, OfferAndCommit, Refines, FirstUnmet;
    OfferReturns(a, env, 2, 1);
    FourNeeds(Save(env.persist(0)), Hear(token, env.call(0)),
              Reliance(Accepted(token, env.call(0), Reserved) && a.serial != 0, Told(env.call(0))),
              Save(env.persist(1)), OfferNeeds(a, env.call(1), env.persist(2), env.call(2)), Told(env.call(2)));
  }

  /** So does a resumed session that finds a reservation, and one that finds an offer. */
  lemma ResumeReturns(saved: Token, env: Env, a: Reply)
    requires env.call(0) == Replied(a) && AcceptsReply(saved, a) && a.phase.Reserved?
    ensures Resume(saved, env).result
         == FirstUnmet([Save(env.persist(0))] + OfferNeeds(a.token, env.call(1), env.persist(1), env.call(2)),
                       Told(env.call(2)))
  {
    hide FirstUnmet, OfferNeeds, CommitNeeds, OfferAndCommit, CommitOffer, Refines;
    OfferReturns(a.token, env, 1, 1);
    Needs(Save(env.persist(0)), OfferNeeds(a.token, env.call(1), env.persist(1), env.call(2)), Told(env.call(2)));
  }

  lemma ResumeCommitReturns(saved: Token, env: Env, a: Reply)
    requires env.call(0) == Replied(a) && AcceptsReply(saved, a)
    requires a.phase.Offered? && !a.result.OtherResult?
    ensures Resume(saved, env).result
         == FirstUnmet(CommitNeeds(a.token, env.persist(0), env.call(1)), Told(env.call(1)))
  {
    hide FirstUnmet, CommitNeeds, CommitOffer, Refines;
    CommitReturns(a, env, 0, 1);
  }

  /** Without an accepted status nothing is saved or sent any more. */
  lemma ResumeGivesUp(saved: Token, env: Env)
    requires !Heard(saved, env.call(0))
    ensures Resume(saved, env)
         == Session(if env.call(0).NotOpened? then [] else [Sent(Status, saved)], NotHeard(env.call(0)))
  {
    hide Refines;
  }

  /** What a first session asks of its arguments. */
  predicate Startable(scope: Scope, request: Process, intent: Words) {
    && scope.headerFits && scope.token.epoch != (0, 0, 0) && intent != (0, 0, 0)
    && scope.token.broker.instanceId > 0 && scope.token.broker.reserved == 0 && scope.token.broker.generation > 0
    && request.instanceId > 0 && request.reserved == 0 && request.generation > 0
  }

  /** Before anything is sent: bad arguments leave no trace; otherwise a token with the identity that
      was given, without a serial and without processes, is stored first, and a save that was not
      confirmed ends the session, whether the token was kept or not. */
  lemma BeginSavesFirst(scope: Scope, request: Process, intent: Words, env: Env)
    ensures !Startable(scope, request, intent) ==> Begin(scope, request, intent, env) == Session([], Invalid)
    ensures var events := Begin(scope, request, intent, env).events;
            var token := Token(scope.token.broker, request, scope.token.epoch, intent, 0, NO_PROCESS, NO_PROCESS);
            Startable(scope, request, intent) ==>
              match env.persist(0)
              case Confirmed => events != [] && events[0] == Stored(token)
              case Unconfirmed(_, kept) => events == if kept then [Stored(token)] else []
  {
    hide OfferAndCommit, Refines;
  }

  /** A reply is taken exactly if the request was one the client may send, the reply is well formed,
      keeps the identity, and contradicts nothing that was known. */
  lemma ReplyTaken(op: Operation, token: Token, answer: Answer)
    ensures Call(op, token, answer).reply.Some?
       <==> && (op.Reserve? ==> token.serial == 0)
            && (op.Offer? || op.Acknowledge? ==> token.serial > 0)
            && answer.Replied? && answer.reply.headerFits
            && var t := answer.reply.token;
               && (t.broker, t.request, t.epoch, t.intent) == (token.broker, token.request, token.epoch, token.intent)
               && (token.serial > 0 ==> t.serial == token.serial)
               && (ValidProcess(token.process) ==> t.process == token.process)
               && (ValidProcess(token.desktop) ==> t.desktop == token.desktop)
  {
  }
}
