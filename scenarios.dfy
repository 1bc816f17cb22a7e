/**
  Sequences of operations on one session, as the page runs them: a probe followed by a
  query, two overlapping submissions, and the history written and read back.
 */
module Scenarios {
  import opened Wrappers
  import opened Text
  import opened Transport
  import opened Probe
  import opened Query
  import opened History
  import opened Session

  /**
    After the primary check fails with a non-CORS error and the fallback answers, the next query
    goes to the fallback address.
   */
  method QueryAfterFallback(s: AppState, page: Page, primary: Outcome, diagnostic: Outcome, fallback: Outcome,
                            input: string, now: int)
      returns (sub: Submission)
    requires !MixedContent(page.protocol, s.baseUrl)
    requires PrimaryError(primary).Some? && !IsCorsShaped(PrimaryError(primary).value)
    requires FallbackError(fallback).None?
    requires Trim(input) != []
    modifies s
    ensures s.baseUrl == s.fallbackUrl && s.isConnected && s.isQuerying
    ensures sub == Sent(Pending(Trim(input), now, Post(s.fallbackUrl + QueryPath, Trim(input), true)))
  {
    var _ := s.CheckConnection(page, primary, diagnostic, fallback);
    assert s.baseUrl == s.fallbackUrl && s.isConnected;
    sub := s.SubmitQuery(input, now);
    assert sub.Sent?;
  }

  /**
    A blocked probe of a disconnected session leaves it disconnected, so a question is then
    refused without any request.
   */
  method QueryAfterMixedContent(s: AppState, page: Page, primary: Outcome, diagnostic: Outcome, fallback: Outcome,
                                input: string, now: int)
      returns (sub: Submission)
    requires !s.isConnected && MixedContent(page.protocol, s.baseUrl)
    requires Trim(input) != []
    modifies s
    ensures sub == NotConnected && !s.isConnected && s.indicator == Offline
  {
    var _ := s.CheckConnection(page, primary, diagnostic, fallback);
    assert !s.isConnected && s.indicator == Offline;
    sub := s.SubmitQuery(input, now);
    assert sub == NotConnected;
  }

  /**
    Nothing rejects a second question while one is in flight: both are sent, and the first to
    settle clears the in-flight flag while the other is still pending.
   */
  method OverlappingQueries(s: AppState, first: string, second: string, t1: int, t2: int,
                            outcome: QueryOutcome, endTime: int, itemId: int, timestamp: string)
      returns (a: Submission, b: Submission)
    requires s.isConnected && Trim(first) != [] && Trim(second) != []
    modifies s
    ensures a.Sent? && b.Sent?
    ensures !s.isQuerying
  {
    a := s.SubmitQuery(first, t1);
    assert a.Sent? && s.isConnected;
    b := s.SubmitQuery(second, t2);
    assert b.Sent?;
    var _ := s.FinishQuery(a.pending, outcome, endTime, itemId, timestamp, true);
    assert !s.isQuerying;
  }

  /** A failed query leaves the history as it was, and the session stays connected. */
  method FailedQueryKeepsHistory(s: AppState, input: string, now: int, outcome: QueryOutcome,
                                 endTime: int, itemId: int, timestamp: string)
      returns (report: QueryReport)
    requires s.isConnected && Trim(input) != [] && QueryError(outcome).Some?
    modifies s
    ensures report.Failed? && s.history == old(s.history) && s.isConnected && !s.isQuerying
  {
    var sub := s.SubmitQuery(input, now);
    assert sub.Sent? && s.history == old(s.history) && s.isConnected;
    report := s.FinishQuery(sub.pending, outcome, endTime, itemId, timestamp, true);
    assert report.Failed? && s.history == old(s.history);
  }

  /**
    An answered query puts the trimmed question first in the history, where reusing its id
    finds it.
   */
  method AnsweredQueryIsReusable(s: AppState, input: string, now: int, outcome: QueryOutcome,
                                 endTime: int, itemId: int, timestamp: string)
      returns (question: Option<string>)
    requires s.isConnected && Trim(input) != [] && QueryError(outcome).None?
    modifies s
    ensures question == Some(Trim(input))
  {
    var sub := s.SubmitQuery(input, now);
    var _ := s.FinishQuery(sub.pending, outcome, endTime, itemId, timestamp, false);
    assert s.history[0].id == itemId;
    question := s.ReuseQuery(itemId);
    if question.Some? {
      var k :| 0 <= k < |s.history| && s.history[k].id == itemId && s.history[k].question == question.value
        && forall j :: 0 <= j < k ==> s.history[j].id != itemId;
      assert k == 0;
    }
  }

  /** A history that was saved reads back unchanged on the next load. */
  method SaveThenLoad(s: AppState)
    modifies s
    ensures s.history == old(s.history) && s.storage == Stored(old(s.history))
  {
    s.SaveHistory(true);
    s.LoadHistory();
  }

  /** A confirmed clear that is saved leaves an empty history on the next load. */
  method ClearThenLoad(s: AppState)
    requires s.history != []
    modifies s
    ensures s.history == [] && s.storage == Stored([])
  {
    var _ := s.ClearHistory(true, true);
    s.LoadHistory();
  }
}
