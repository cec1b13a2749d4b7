/** The poll rows (state.go): one row for each polled book, four statuses, a fingerprint guard on
    every report, and a bound on attempts. */
module Polls {
  import opened Inventory

  datatype PollStatus = Pending | Retry | Failed | Current

  /** `due` is the time of the next attempt; without one a pending or retried row is due at once. */
  datatype PollRow<F> = PollRow(observed: F, applied: Option<F>, status: PollStatus, attempts: nat, due: Option<int>, error: Option<string>)

  /** What the store methods report; Changed stands for ErrPollObservationChanged. */
  datatype Outcome<+T> = Done(value: T) | Changed

  // ---- The store methods on one row ----

  /** Records an observation; a new fingerprint starts over, a known one changes nothing. */
  function Observe<F(==)>(row: Option<PollRow<F>>, fp: F, at: int): PollRow<F> {
    if row.None? then PollRow(fp, None, Pending, 0, Some(at), None)
    else if row.value.observed == fp then row.value
    else if row.value.applied == Some(fp) then PollRow(fp, row.value.applied, Current, 0, None, None)
    else PollRow(fp, row.value.applied, Pending, 0, Some(at), None)
  }

  /** Makes a current row due again. */
  function Requeue<F(==)>(row: Option<PollRow<F>>, fp: F): Outcome<PollRow<F>> {
    if row.None? || row.value.observed != fp then Changed
    else if row.value.status == Current then Done(row.value.(status := Pending, due := None, error := None))
    else Done(row.value)
  }

  function Succeed<F(==)>(row: Option<PollRow<F>>, fp: F): Outcome<PollRow<F>> {
    if row.None? || row.value.observed != fp then Changed
    else Done(PollRow(fp, Some(fp), Current, 0, None, None))
  }

  /** One failed attempt: a retry, or, when the attempts are used up, the end. */
  function Fail<F(==)>(row: Option<PollRow<F>>, fp: F, code: string, next: Option<int>, maxAttempts: nat): Outcome<PollRow<F>> {
    if row.None? || row.value.observed != fp || row.value.status !in {Pending, Retry} then Changed
    else
      var n := row.value.attempts + 1;
      if n >= maxAttempts then Done(row.value.(status := Failed, attempts := n, due := None, error := Some(code)))
      else Done(row.value.(status := Retry, attempts := n, due := next, error := Some(code)))
  }

  predicate Due<F>(row: PollRow<F>, now: int) {
    row.status in {Pending, Retry} && (row.due.None? || row.due.value <= now)
  }

  // ---- Any interleaving of scans and workers ----

  /** One atomic store call by anybody. A failure is transient, with the configured number of
      attempts, or final, with one. */
  datatype Event<F> = Seen(fp: F, at: int) | Requeued(fp: F) | Succeeded(fp: F) | FailedOn(fp: F, code: string, next: Option<int>, transient: bool)

  function Step<F(==)>(row: Option<PollRow<F>>, e: Event<F>, maxAttempts: nat): Option<PollRow<F>> {
    var report := match e
      case Seen(fp, at) => Done(Observe(row, fp, at))
      case Requeued(fp) => Requeue(row, fp)
      case Succeeded(fp) => Succeed(row, fp)
      case FailedOn(fp, code, next, transient) =>
        Fail(row, fp, code, if transient then next else None, if transient then maxAttempts else 1);
    if report.Done? then Some(report.value) else row
  }

  function Run<F(==)>(row: Option<PollRow<F>>, events: seq<Event<F>>, maxAttempts: nat): Option<PollRow<F>> {
    if events == [] then row
    else Step(Run(row, events[..|events| - 1], maxAttempts), events[|events| - 1], maxAttempts)
  }

  /** What every stored row satisfies. */
  predicate RowOK<F(==)>(row: PollRow<F>, maxAttempts: nat) {
    && (row.status == Current ==> row.applied == Some(row.observed) && row.attempts == 0 && row.due.None? && row.error.None?)
    && (row.status == Pending ==> row.attempts == 0 && row.error.None?)
    && (row.status == Retry ==> 1 <= row.attempts < maxAttempts)
    && (row.status == Failed ==> 1 <= row.attempts <= maxAttempts && row.due.None?)
  }

  lemma {:induction false} RowsStayOK<F>(row: Option<PollRow<F>>, events: seq<Event<F>>, maxAttempts: nat)
    requires maxAttempts > 0 && (row.Some? ==> RowOK(row.value, maxAttempts))
    ensures var end := Run(row, events, maxAttempts);
            end.Some? ==> RowOK(end.value, maxAttempts) && end.value.attempts <= maxAttempts
  {
    if events != [] {
      RowsStayOK(row, events[..|events| - 1], maxAttempts);
    }
  }

  // ---- No observation is lost ----

  predicate Reports<F(==)>(e: Event<F>, fp: F) {
    (e.Requeued? || e.Succeeded? || e.FailedOn?) && e.fp == fp
  }

  /** A worker that holds an old fingerprint changes nothing when it reports. */
  lemma StaleReportChangesNothing<F>(row: PollRow<F>, e: Event<F>, maxAttempts: nat)
    requires !e.Seen? && e.fp != row.observed
    ensures Step(Some(row), e, maxAttempts) == Some(row)
  {
  }

  /** A new observation is due, unless it is the one already applied, and stays due whatever
      the workers holding other fingerprints report and however often it is seen again. */
  lemma {:induction false} NewObservationStaysDue<F>(row: Option<PollRow<F>>, fp: F, at: int, events: seq<Event<F>>, maxAttempts: nat, now: int)
    requires row.Some? ==> row.value.observed != fp && row.value.applied != Some(fp)
    requires forall e :: e in events ==> if e.Seen? then e.fp == fp else e.fp != fp
    requires at <= now
    ensures var end := Run(Some(Observe(row, fp, at)), events, maxAttempts);
            && end == Some(Observe(row, fp, at))
            && end.value.observed == fp && end.value.status == Pending && Due(end.value, now)
  {
    if events != [] {
      var front, last := events[..|events| - 1], events[|events| - 1];
      assert last in events;
      NewObservationStaysDue(row, fp, at, front, maxAttempts, now);
    }
  }

  /** What counts as applied has been reported successful by some worker. */
  lemma {:induction false} AppliedWasReported<F>(row: Option<PollRow<F>>, events: seq<Event<F>>, maxAttempts: nat)
    ensures var end := Run(row, events, maxAttempts);
            end.Some? && end.value.applied.Some? ==>
              || (row.Some? && end.value.applied == row.value.applied)
              || Succeeded(end.value.applied.value) in events
  {
    if events != [] {
      AppliedWasReported(row, events[..|events| - 1], maxAttempts);
      assert events == events[..|events| - 1] + [events[|events| - 1]];
    }
  }

  /** A change that is taken back before any success is reported leaves nothing to do. */
  lemma {:induction false} RevertedIsCurrent<F>(row: PollRow<F>, events: seq<Event<F>>, maxAttempts: nat, at: int, now: int)
    requires forall e :: e in events ==> !e.Succeeded?
    ensures var end := Run(Some(row), events, maxAttempts);
            && end.Some? && end.value.applied == row.applied
            && (row.applied.Some? && end.value.observed != row.applied.value ==>
                  && Observe(end, row.applied.value, at).status == Current && Observe(end, row.applied.value, at).observed == row.applied.value
                  && !Due(Observe(end, row.applied.value, at), now))
  {
    if events != [] {
      assert events[|events| - 1] in events;
      RevertedIsCurrent(row, events[..|events| - 1], maxAttempts, at, now);
    }
  }

  // ---- Retries end ----

  function Failures<F(==)>(events: seq<Event<F>>, fp: F): nat {
    if events == [] then 0
    else
      var last := events[|events| - 1];
      Failures(events[..|events| - 1], fp) + if last.FailedOn? && last.fp == fp then 1 else 0
  }

  predicate Min(a: nat, b: nat, m: nat) { m <= a && m <= b && (m == a || m == b) }

  /** The observation keeps failing: it is never reported successful, and nothing else is seen. */
  predicate KeepsFailing<F(==)>(events: seq<Event<F>>, fp: F) {
    forall e :: e in events ==> (e.Seen? ==> e.fp == fp) && (e.Succeeded? ==> e.fp != fp)
  }

  /** Every failure of a transient kind uses up one attempt; after maxAttempts of them, and not
      before, the row has failed. */
  lemma {:induction false} RetriesAreCounted<F>(row: PollRow<F>, events: seq<Event<F>>, maxAttempts: nat)
    requires maxAttempts > 0 && row.status == Pending && row.attempts == 0 && KeepsFailing(events, row.observed)
    requires forall e :: e in events && e.FailedOn? && e.fp == row.observed ==> e.transient
    ensures var end := Run(Some(row), events, maxAttempts);
            && end.Some? && end.value.observed == row.observed
            && Min(Failures(events, row.observed), maxAttempts, end.value.attempts)
            && (end.value.status == Failed <==> Failures(events, row.observed) >= maxAttempts)
            && end.value.status != Current
            && (end.value.status == Pending ==> end.value.attempts == 0)
  {
    if events != [] {
      var front, last := events[..|events| - 1], events[|events| - 1];
      assert last in events;
      RetriesAreCounted(row, front, maxAttempts);
    }
  }

  /** With final failures among them it can only be sooner. */
  lemma {:induction false} FailsWithinBound<F>(row: PollRow<F>, events: seq<Event<F>>, maxAttempts: nat)
    requires maxAttempts > 0 && RowOK(row, maxAttempts) && row.status != Current && KeepsFailing(events, row.observed)
    ensures var end := Run(Some(row), events, maxAttempts);
            && end.Some? && end.value.observed == row.observed && end.value.status != Current
            && RowOK(end.value, maxAttempts)
            && (end.value.status == Failed || end.value.attempts == row.attempts + Failures(events, row.observed))
            && (Failures(events, row.observed) >= maxAttempts ==> end.value.status == Failed)
  {
    if events != [] {
      var front, last := events[..|events| - 1], events[|events| - 1];
      assert last in events;
      FailsWithinBound(row, front, maxAttempts);
    }
  }

  /** A failed row is not due, and stays so until something else is seen or a success is reported. */
  lemma {:induction false} FailedStaysFailed<F>(row: PollRow<F>, events: seq<Event<F>>, maxAttempts: nat, now: int)
    requires row.status == Failed && KeepsFailing(events, row.observed)
    ensures Run(Some(row), events, maxAttempts) == Some(row) && !Due(row, now)
  {
    if events != [] {
      assert events[|events| - 1] in events;
      FailedStaysFailed(row, events[..|events| - 1], maxAttempts, now);
    }
  }

  // ---- The table ----

  class PollStore<F(==)> {
    var rows: map<nat, PollRow<F>>

    function Row(id: nat): Option<PollRow<F>>
      reads this
    {
      if id in rows then Some(rows[id]) else None
    }

    constructor ()
      ensures rows == map[]
    {
      rows := map[];
    }

    method UpsertPollObservation(id: nat, fp: F, at: int)
      modifies this
      ensures Row(id) == Some(Observe(old(Row(id)), fp, at))
      ensures forall j :: j != id ==> Row(j) == old(Row(j))
    {
      rows := rows[id := Observe(Row(id), fp, at)];
    }

    method MarkPollPending(id: nat, fp: F) returns (ok: bool)
      modifies this
      ensures Row(id) == Step(old(Row(id)), Requeued(fp), 1)
      ensures forall j :: j != id ==> Row(j) == old(Row(j))
      ensures ok <==> old(id in rows && rows[id].observed == fp)
    {
      var next := Requeue(Row(id), fp);
      ok := next.Done?;
      if ok {
        rows := rows[id := next.value];
      }
    }

    method MarkPollSuccess(id: nat, fp: F) returns (ok: bool)
      modifies this
      ensures Row(id) == Step(old(Row(id)), Succeeded(fp), 1)
      ensures forall j :: j != id ==> Row(j) == old(Row(j))
      ensures ok <==> old(id in rows && rows[id].observed == fp)
    {
      var next := Succeed(Row(id), fp);
      ok := next.Done?;
      if ok {
        rows := rows[id := next.value];
      }
    }

    method RecordPollFailure(id: nat, fp: F, code: string, next: Option<int>, maxAttempts: nat) returns (ok: bool)
      requires maxAttempts > 0
      modifies this
      ensures ok <==> Fail(old(Row(id)), fp, code, next, maxAttempts).Done?
      ensures ok ==> Row(id) == Some(Fail(old(Row(id)), fp, code, next, maxAttempts).value)
      ensures !ok ==> rows == old(rows)
      ensures forall j :: j != id ==> Row(j) == old(Row(j))
    {
      var value := Fail(Row(id), fp, code, next, maxAttempts);
      ok := value.Done?;
      if ok {
        rows := rows[id := value.value];
      }
    }

    /** Every due row, each once. */
    method ListDuePollStates(now: int) returns (due: seq<nat>)
      ensures forall id :: id in due <==> id in rows && Due(rows[id], now)
      ensures forall i, j :: 0 <= i < j < |due| ==> due[i] != due[j]
    {
      due := [];
      var left := rows.Keys;
      while left != {}
        invariant left <= rows.Keys
        invariant forall id :: id in due <==> id in rows && id !in left && Due(rows[id], now)
        invariant forall i, j :: 0 <= i < j < |due| ==> due[i] != due[j]
        decreases |left|
      {
        var id :| id in left;
        left := left - {id};
        if Due(rows[id], now) {
          due := due + [id];
        }
      }
    }
  }
}
