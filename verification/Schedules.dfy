/** One-time schedules and the statuses they are given. */
module Schedules {
  type Uuid = nat

  datatype Status = Scheduled | Deleted | Success | Failure | Miss | Error | Paused | Unknown(text: string)

  /** An entry of a schedule's reconciliation history. */
  datatype Attempt = Attempt(status: Status, error: string, on: string)

  datatype Schedule = Schedule(
    id: Uuid,
    app: string,
    partition: nat,
    group: int,          // the minute it fires in, in Unix seconds
    payload: string,
    status: Status,
    error: string,
    history: seq<Attempt>)

  /** What a callback came back with: a transport error or an HTTP status code. */
  datatype Reply = Failed(message: string) | Response(code: int, line: string)

  predicate IsSuccess(r: Reply) { r.Response? && 200 <= r.code <= 299 }

  function Trim(message: string): (r: string)
    ensures r <= message && |r| == if |message| < 200 then |message| else 200
  {
    if |message| < 200 then message else message[..200]
  }

  const MAX_HISTORY := 5

  function LastAttempts(log: seq<Attempt>): seq<Attempt> {
    if |log| > MAX_HISTORY then log[|log| - MAX_HISTORY..] else log
  }

  /** `UpdateReconciliationHistory`. */
  function Record(s: Schedule, on: string): Schedule {
    s.(history := LastAttempts(s.history + [Attempt(s.status, s.error, on)]))
  }

  /** `handleCallbackResult`: the schedule that is handed on to be stored. */
  function Outcome(s: Schedule, reply: Reply, reconciliation: bool, on: string): Schedule {
    var marked :=
      if reply.Failed? then s.(status := Failure, error := Trim(reply.message))
      else if !IsSuccess(reply) then s.(status := Failure, error := Trim(reply.line))
      else s.(status := Success, error := "");
    if reconciliation then Record(marked, on) else marked
  }

  /** What a reply leads to: SUCCESS for a code from 200 to 299, and FAILURE otherwise with the
      first 200 characters of the error or status line. A reconciliation also appends that
      status and error to the history, of which the last five entries stay. */
  lemma OutcomeIs(s: Schedule, reply: Reply, reconciliation: bool, on: string)
    ensures var r := Outcome(s, reply, reconciliation, on);
      var good := reply.Response? && 200 <= reply.code <= 299;
      && r.status == (if good then Success else Failure)
      && (good ==> r.error == "")
      && (!good ==> var text := if reply.Failed? then reply.message else reply.line;
            r.error == if |text| < 200 then text else text[..200])
      && r == s.(status := r.status, error := r.error, history := r.history)
      && (!reconciliation ==> r.history == s.history)
      && (reconciliation ==>
            && |r.history| == (if |s.history| < 5 then |s.history| + 1 else 5)
            && r.history[|r.history| - 1] == Attempt(r.status, r.error, on)
            && r.history[..|r.history| - 1] == s.history[|s.history| + 1 - |r.history|..])
  {
  }

  /** The history after a series of attempts, cut after each. */
  function Recorded(history: seq<Attempt>, attempts: seq<Attempt>): seq<Attempt>
    decreases |attempts|
  {
    if attempts == [] then history
    else Recorded(LastAttempts(history + [attempts[0]]), attempts[1..])
  }

  lemma CutTwice(log: seq<Attempt>, a: Attempt)
    ensures LastAttempts(LastAttempts(log) + [a]) == LastAttempts(log + [a])
  {
  }

  lemma {:induction false} CutEach(log: seq<Attempt>, attempts: seq<Attempt>)
    ensures Recorded(LastAttempts(log), attempts) == LastAttempts(log + attempts)
    decreases |attempts|
  {
    if attempts == [] {
      assert log + attempts == log;
    } else {
      CutTwice(log, attempts[0]);
      hide LastAttempts;
      CutEach(log + [attempts[0]], attempts[1..]);
      assert log + [attempts[0]] + attempts[1..] == log + attempts;
    }
  }

  /** Cutting after every attempt keeps exactly the last five of the full log. */
  lemma HistoryIsLastFive(attempts: seq<Attempt>)
    ensures Recorded([], attempts) == if |attempts| > 5 then attempts[|attempts| - 5..] else attempts
  {
    CutEach([], attempts);
    assert [] + attempts == attempts;
  }
}
