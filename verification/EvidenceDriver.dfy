/** Observer objects one after the other, each continuing from what storage holds. */
module EvidenceDrivers {
  import opened Options
  import opened EvidenceModel
  import opened EvidenceRuns
  import opened EvidenceObservers

  const NO_TOKEN := Token(NO_PROCESS, NO_PROCESS, (0, 0, 0), (0, 0, 0), 0, NO_PROCESS, NO_PROCESS)

  const NO_REPLY := Reply(false, NO_TOKEN, OtherPhase(0), Done)

  /** One observer begins, crashes, and others resume with the stored token until they crash: the
      events they leave are a history, so each of them is lawful. */
  method Drive(scope: Scope, request: Process, intent: Words, first: Visit, visits: seq<Visit>)
    returns (h: seq<Event>)
    ensures h == History(scope, request, intent, first, visits)
    ensures Lawful(h)
  {
    HistoryLawful(scope, request, intent, first, visits);
    hide Lawful, EvidenceModel.Begin, EvidenceModel.Resume, Cut, LastStored;
    var observer := new Observer(first.env, NO_TOKEN, NO_REPLY);
    var _ := observer.Begin(scope, request, intent);
    h := Cut(observer.trace, first.survives);
    var i := 0;
    assert visits[0..] == visits;
    while i < |visits|
      invariant i <= |visits|
      invariant Visits(h, visits[i..]) == History(scope, request, intent, first, visits)
    {
      var stored := LastStored(h);
      if stored.None? {
        return;
      }
      assert visits[i..][0] == visits[i] && visits[i..][1..] == visits[i + 1..];
      observer := new Observer(visits[i].env, stored.value, NO_REPLY);
      var _ := observer.Resume();
      h := h + Cut(observer.trace, visits[i].survives);
      i := i + 1;
    }
  }
}
