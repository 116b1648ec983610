/**
 The resumable prefetch of minute history: per code a sliding window of requests, answers taken in
 order, one record per day, and a run that ends finished, paused, or after too many failures in a row.
 */
module MinuteFetch {
  import opened Sequences

  const MAX_WORKERS: nat := 8
  const RECENT_SESSIONS: nat := 3
  const MAX_FAILURES: nat := 20

  /** What a request came to; an absent error code is empty. */
  datatype Answer = Exception | Payload(errcode: string, trend: seq<int>)

  datatype Status = Data | NoData | Refused | Failed

  /** An answer taken, in the order of taking. */
  datatype Entry = Entry(code: string, day: string, answer: Answer)

  datatype Outcome = Invalid | Finished(calls: nat) | Paused(calls: nat, code: string, day: string) | Aborted

  function StatusOf(answer: Answer): Status {
    if answer.Exception? then Failed
    else
      var errcode := if answer.errcode == "" then "0" else answer.errcode;
      if errcode != "0" && errcode != "1020" then Refused
      else if answer.trend != [] then Data
      else NoData
  }

  predicate Fails(e: Entry) { StatusOf(e.answer) == Refused || StatusOf(e.answer) == Failed }

  /** Data is stored; an empty answer only for a session that is not recent. */
  predicate Storable(e: Entry, recent: set<string>) {
    StatusOf(e.answer) == Data || (StatusOf(e.answer) == NoData && e.day !in recent)
  }

  function Recent(days: seq<string>): set<string> {
    Elements(if |days| <= RECENT_SESSIONS then days else days[|days| - RECENT_SESSIONS..])
  }

  /** The days a run stores for a code, in order. */
  function Stored(log: seq<Entry>, code: string, recent: set<string>): seq<string> {
    if log == [] then []
    else
      var last := log[|log| - 1];
      Stored(log[..|log| - 1], code, recent) + if last.code == code && Storable(last, recent) then [last.day] else []
  }

  // ---- What an answer means -------------------------------------------------------------

  /** The upstream answered: no error code, code 0, or the code for no data. */
  predicate Answered(a: Answer) { a.Payload? && a.errcode in {"", "0", "1020"} }

  /** Among the last three days asked for. */
  predicate LastThree(days: seq<string>, day: string) { exists i :: 0 <= i < |days| && i >= |days| - 3 && days[i] == day }

  lemma RecentIsLastThree(days: seq<string>, day: string)
    ensures day in Recent(days) <==> LastThree(days, day)
  {
    var last := if |days| <= RECENT_SESSIONS then days else days[|days| - RECENT_SESSIONS..];
    if day in last {
      var i :| 0 <= i < |last| && last[i] == day;
      assert days[|days| - |last| + i] == day;
    }
    if LastThree(days, day) {
      var i :| 0 <= i < |days| && i >= |days| - 3 && days[i] == day;
      assert last[i - (|days| - |last|)] == day;
    }
  }

  /** A refusal is an answer with some other error code; a failure is no answer at all. */
  lemma StatusMeaning(a: Answer)
    ensures StatusOf(a) == Failed <==> a.Exception?
    ensures StatusOf(a) == Refused <==> a.Payload? && a.errcode !in {"", "0", "1020"}
    ensures StatusOf(a) == Data <==> Answered(a) && a.trend != []
  {}

  /** Exceptions and other error codes fail; anything else is stored unless it is empty and recent. */
  lemma EntryMeaning(e: Entry, days: seq<string>)
    ensures Fails(e) <==> !Answered(e.answer)
    ensures Storable(e, Recent(days)) <==> Answered(e.answer) && (e.answer.trend != [] || !LastThree(days, e.day))
  {
    RecentIsLastThree(days, e.day);
  }

  /** The log ends in twenty answers in a row that failed. */
  predicate TwentyFailed(log: seq<Entry>) {
    |log| >= 20 && forall i | |log| - 20 <= i < |log| :: !Answered(log[i].answer)
  }

  /** Failures at the end of a log without an answer between them. */
  function Streak(log: seq<Entry>): nat {
    if log == [] || !Fails(log[|log| - 1]) then 0 else Streak(log[..|log| - 1]) + 1
  }

  /** The streak is exactly the run of failures that ends the log. */
  lemma {:induction false} StreakIsTail(log: seq<Entry>)
    ensures Streak(log) <= |log|
    ensures forall i | |log| - Streak(log) <= i < |log| :: Fails(log[i])
    ensures Streak(log) < |log| ==> !Fails(log[|log| - Streak(log) - 1])
  {
    if log != [] && Fails(log[|log| - 1]) {
      var front := log[..|log| - 1];
      StreakIsTail(front);
      forall i | |log| - Streak(log) <= i < |log| ensures Fails(log[i]) {
        if i < |front| { assert front[i] == log[i]; }
      }
      if Streak(log) < |log| { assert front[|front| - Streak(front) - 1] == log[|log| - Streak(log) - 1]; }
    }
  }

  lemma StreakOfTwenty(log: seq<Entry>)
    ensures Streak(log) >= 20 <==> TwentyFailed(log)
  {
    StreakIsTail(log);
    forall e: Entry ensures Fails(e) <==> !Answered(e.answer) { EntryMeaning(e, []); }
    if |log| >= 20 && Streak(log) < 20 { assert !Fails(log[|log| - Streak(log) - 1]); }
  }

  function Lines(files: map<string, seq<string>>, code: string): seq<string> {
    if code in files then files[code] else []
  }

  function Without(days: seq<string>, done: set<string>): seq<string> {
    if days == [] then []
    else Without(days[..|days| - 1], done) + if days[|days| - 1] in done then [] else [days[|days| - 1]]
  }

  lemma {:induction false} WithoutIs(days: seq<string>, done: set<string>)
    ensures forall d :: d in Without(days, done) <==> d in days && d !in done
    ensures Distinct(days) ==> Distinct(Without(days, done))
  {
    if days != [] {
      WithoutIs(days[..|days| - 1], done);
      assert days == days[..|days| - 1] + [days[|days| - 1]];
    }
  }

  /** The days left are in the order they were given in. */
  lemma {:induction false} WithoutKeepsOrder(days: seq<string>, done: set<string>, i: nat, j: nat) returns (p: nat, q: nat)
    requires i < j < |Without(days, done)|
    ensures p < q < |days| && days[p] == Without(days, done)[i] && days[q] == Without(days, done)[j]
  {
    var front, last := days[..|days| - 1], days[|days| - 1];
    if j < |Without(front, done)| {
      p, q := WithoutKeepsOrder(front, done, i, j);
    } else {
      WithoutIs(front, done);
      q := |days| - 1;
      assert Without(front, done)[i] in front;
      p :| 0 <= p < |front| && front[p] == Without(front, done)[i];
    }
  }

  function Range(index: nat, size: nat): (r: set<nat>)
    ensures |r| == size
    ensures forall j :: j in r <==> index <= j < index + size
  {
    if size == 0 then {} else Range(index, size - 1) + {index + size - 1}
  }

  lemma {:induction false} StorableIsStored(log: seq<Entry>, i: nat, recent: set<string>)
    requires i < |log| && Storable(log[i], recent)
    ensures log[i].day in Stored(log, log[i].code, recent)
  {
    if i < |log| - 1 { StorableIsStored(log[..|log| - 1], i, recent); }
  }

  lemma Associative<T>(a: seq<T>, b: seq<T>, c: seq<T>)
    ensures (a + b) + c == a + (b + c)
  {}

  lemma StoredOneMore(log: seq<Entry>, e: Entry, recent: set<string>)
    ensures Stored(log + [e], e.code, recent)
            == Stored(log, e.code, recent) + if Storable(e, recent) then [e.day] else []
  {
    assert (log + [e])[..|log|] == log;
  }

  lemma {:induction false} StoredAppend(log: seq<Entry>, more: seq<Entry>, code: string, recent: set<string>)
    ensures Stored(log + more, code, recent) == Stored(log, code, recent) + Stored(more, code, recent)
  {
    if more == [] {
      assert log + more == log;
    } else {
      StoredAppend(log, more[..|more| - 1], code, recent);
      assert (log + more)[..|log + more| - 1] == log + more[..|more| - 1];
    }
  }

  lemma {:induction false} NothingOfOthers(taken: seq<Entry>, code: string, other: string, recent: set<string>)
    requires other != code && forall e | e in taken :: e.code == code
    ensures Stored(taken, other, recent) == []
  {
    if taken != [] {
      var front := taken[..|taken| - 1];
      assert taken[|taken| - 1] in taken && forall e | e in front :: e in taken;
      NothingOfOthers(front, code, other, recent);
    }
  }

  /** The run asked for the day and got nothing it could store. */
  predicate Unsaved(log: seq<Entry>, code: string, day: string, recent: set<string>) {
    exists e :: e in log && e.code == code && e.day == day && !Storable(e, recent)
  }

  predicate Settled(lines: seq<string>, log: seq<Entry>, code: string, days: seq<string>, recent: set<string>) {
    forall day | day in days :: day in lines || Unsaved(log, code, day, recent)
  }

  lemma SettledStays(lines: seq<string>, log: seq<Entry>, more: seq<Entry>, added: seq<string>,
                     code: string, days: seq<string>, recent: set<string>)
    requires Settled(lines, log, code, days, recent)
    ensures Settled(lines + added, log + more, code, days, recent)
  {
    forall day | day in days ensures day in lines + added || Unsaved(log + more, code, day, recent) {
      if day !in lines {
        var e :| e in log && e.code == code && e.day == day && !Storable(e, recent);
        assert e in log + more;
      }
    }
  }

  /** A code whose pending days were all taken is settled. */
  lemma TakenSettles(before: seq<string>, log: seq<Entry>, taken: seq<Entry>, code: string, days: seq<string>, recent: set<string>)
    requires forall e | e in taken :: e.code == code
    requires AllTaken(before, taken, days)
    ensures Settled(before + Stored(taken, code, recent), log + taken, code, days, recent)
  {
    forall day | day in days
      ensures day in before + Stored(taken, code, recent) || Unsaved(log + taken, code, day, recent)
    {
      if day !in before {
        var e :| e in taken && e.day == day;
        assert e in log + taken;
        if Storable(e, recent) {
          var i :| 0 <= i < |taken| && taken[i] == e;
          StorableIsStored(taken, i, recent);
        }
      }
    }
  }

  /** Nothing is asked for twice in one run. */
  predicate AskedOnce(log: seq<Entry>) {
    forall i, j | 0 <= i < j < |log| :: log[i].code != log[j].code || log[i].day != log[j].day
  }

  /** Twenty failures in a row, and not before. */
  predicate StreakStays(log: seq<Entry>) {
    log == [] || (StreakStays(log[..|log| - 1]) && Streak(log[..|log| - 1]) < MAX_FAILURES)
  }

  lemma {:induction false} StreakStaysThroughout(log: seq<Entry>, m: nat)
    requires StreakStays(log) && m < |log|
    ensures Streak(log[..m]) < MAX_FAILURES
  {
    if m < |log| - 1 {
      StreakStaysThroughout(log[..|log| - 1], m);
      assert log[..|log| - 1][..m] == log[..m];
    }
  }

  predicate TookInOrder(taken: seq<Entry>, code: string, pending: seq<string>) {
    |taken| <= |pending| && forall j | 0 <= j < |taken| :: taken[j].code == code && taken[j].day == pending[j]
  }

  lemma InOrderIsPending(taken: seq<Entry>, code: string, pending: seq<string>)
    requires TookInOrder(taken, code, pending)
    ensures forall e | e in taken :: e.code == code && e.day in pending
    ensures Distinct(pending) ==> forall i, j | 0 <= i < j < |taken| :: taken[i].day != taken[j].day
    ensures |taken| == |pending| ==> forall day | day in pending :: exists e :: e in taken && e.day == day
  {
    if |taken| == |pending| {
      forall day | day in pending ensures exists e :: e in taken && e.day == day {
        var j :| 0 <= j < |pending| && pending[j] == day;
        assert taken[j] in taken;
      }
    }
  }

  /** The answers taken are the ones given to the requests, in order. */
  predicate AnsweredBy(taken: seq<Entry>, answer: nat -> Answer) {
    forall j: nat | j < |taken| :: taken[j].answer == answer(j)
  }

  lemma OneMoreAnswered(taken: seq<Entry>, e: Entry, answer: nat -> Answer)
    requires AnsweredBy(taken, answer) && e.answer == answer(|taken|)
    ensures AnsweredBy(taken + [e], answer)
  {}

  predicate NotYet(lines: seq<string>, pending: seq<string>, index: nat) {
    forall j | index <= j < |pending| :: pending[j] !in lines
  }

  /** Where one code stands after some of its pending days. */
  ghost predicate Progress(before: map<string, seq<string>>, files: map<string, seq<string>>, taken: seq<Entry>,
                           code: string, pending: seq<string>, recent: set<string>)
  {
    && TookInOrder(taken, code, pending)
    && files == before[code := Lines(before, code) + Stored(taken, code, recent)]
    && (Distinct(Lines(before, code)) && Distinct(pending) && NotYet(Lines(before, code), pending, 0)
        ==> Distinct(Lines(files, code)) && NotYet(Lines(files, code), pending, |taken|))
  }

  lemma ProgressStarts(before: map<string, seq<string>>, code: string, pending: seq<string>, recent: set<string>)
    ensures Progress(before, before[code := Lines(before, code)], [], code, pending, recent)
  {
    assert Lines(before, code) + Stored([], code, recent) == Lines(before, code);
  }

  lemma ProgressGoesOn(before: map<string, seq<string>>, files: map<string, seq<string>>, taken: seq<Entry>, code: string,
                       pending: seq<string>, recent: set<string>, e: Entry, next: map<string, seq<string>>)
    requires Progress(before, files, taken, code, pending, recent) && |taken| < |pending|
    requires e.code == code && e.day == pending[|taken|]
    requires next == if Storable(e, recent) then files[code := Lines(files, code) + [e.day]] else files
    ensures Progress(before, next, taken + [e], code, pending, recent)
  {
    var lines, stored := Lines(before, code), Stored(taken, code, recent);
    StoredOneMore(taken, e, recent);
    Associative(lines, stored, [e.day]);
    assert stored + [] == stored;
    assert next == before[code := lines + Stored(taken + [e], code, recent)];
    if Distinct(lines) && Distinct(pending) && NotYet(lines, pending, 0) {
      NotYetGoesOn(lines + stored, pending, |taken|, Lines(next, code));
    }
  }

  lemma NotYetGoesOn(lines: seq<string>, pending: seq<string>, index: nat, next: seq<string>)
    requires Distinct(lines) && Distinct(pending) && index < |pending| && NotYet(lines, pending, index)
    requires next == lines || next == lines + [pending[index]]
    ensures Distinct(next) && NotYet(next, pending, index + 1)
  {}

  /** What serving one code does: entries for pending days, each once, and the storable ones on file. */
  ghost predicate Served(before: map<string, seq<string>>, files: map<string, seq<string>>, taken: seq<Entry>,
                         code: string, days: seq<string>, recent: set<string>)
  {
    && files == before[code := Lines(before, code) + Stored(taken, code, recent)]
    && (forall e | e in taken :: e.code == code && e.day in days && e.day !in Lines(before, code))
    && (Distinct(days) ==> forall i, j | 0 <= i < j < |taken| :: taken[i].day != taken[j].day)
    && (Distinct(days) && NoRepeats(before) ==> NoRepeats(files))
  }

  predicate AllTaken(lines: seq<string>, taken: seq<Entry>, days: seq<string>) {
    forall day | day in days && day !in lines :: exists e :: e in taken && e.day == day
  }

  predicate NoRepeats(files: map<string, seq<string>>) { forall code | code in files :: Distinct(files[code]) }

  lemma CodeIsServed(before: map<string, seq<string>>, files: map<string, seq<string>>, taken: seq<Entry>,
                     code: string, pending: seq<string>, recent: set<string>, days: seq<string>)
    requires Progress(before, files, taken, code, pending, recent) && pending == Without(days, Elements(Lines(before, code)))
    ensures Served(before, files, taken, code, days, recent)
    ensures forall d | d in pending :: d in days
    ensures |taken| == |pending| ==> AllTaken(Lines(before, code), taken, days)
  {
    WithoutIs(days, Elements(Lines(before, code)));
    InOrderIsPending(taken, code, pending);
    forall j | 0 <= j < |pending| ensures pending[j] !in Lines(before, code) { assert pending[j] in pending; }
  }

  class Fetcher {
    /** The days recorded per code, in file order. */
    var files: map<string, seq<string>>
    var futures: map<nat, string>
    var calls: nat
    var failures: nat
    /** Answers taken in this run, and the most requests that were outstanding at once. */
    ghost var log: seq<Entry>
    ghost var peak: nat

    constructor ()
      ensures files == map[] && Valid()
    {
      files, futures, calls, failures := map[], map[], 0, 0;
      log, peak := [], 0;
    }

    /** No file holds a day twice. */
    ghost predicate Valid()
      reads this`files
    {
      NoRepeats(files)
    }

    /** The counters say what the log says, and twenty failures in a row have come at most just now. */
    ghost predicate Counted()
      reads this`calls, this`failures, this`log
    {
      calls == |log| && failures == Streak(log) <= MAX_FAILURES && StreakStays(log)
    }

    /** Outstanding are exactly the next `workers` pending days. */
    ghost predicate Window(pending: seq<string>, index: nat, workers: nat)
      reads this`futures
    {
      && (forall j :: j in futures <==> index <= j < index + workers && j < |pending|)
      && (forall j | j in futures && j < |pending| :: futures[j] == pending[j])
    }

    method Submit(pending: seq<string>, index: nat)
      modifies this`futures, this`peak
      ensures futures == if index < |pending| then old(futures)[index := pending[index]] else old(futures)
      ensures peak == if |futures| > old(peak) then |futures| else old(peak)
    {
      if index < |pending| { futures := futures[index := pending[index]]; }
      peak := if |futures| > peak then |futures| else peak;
    }

    /** futures.pop(index) raises for a missing index; callers show it is there. */
    method Pop(index: nat) returns (day: string)
      requires index in futures
      modifies this`futures
      ensures day == old(futures[index]) && futures == old(futures) - {index}
    {
      day := futures[index];
      futures := futures - {index};
    }

    method PendingDays(code: string, days: seq<string>) returns (pending: seq<string>)
      ensures pending == Without(days, Elements(Lines(files, code)))
    {
      var done: set<string>, lines := {}, Lines(files, code);
      for i := 0 to |lines|
        invariant done == Elements(lines[..i])
      {
        assert lines[..i + 1] == lines[..i] + [lines[i]];
        done := done + {lines[i]};
      }
      assert lines[..|lines|] == lines;
      pending := Without(days, done);
    }

    lemma WindowSize(pending: seq<string>, index: nat, workers: nat)
      requires Window(pending, index, workers)
      ensures |futures| <= workers
    {
      SubsetSize(futures.Keys, Range(index, workers));
    }

    method FillWindow(pending: seq<string>, workers: nat)
      requires futures == map[] && workers >= 1
      modifies this`futures, this`peak
      ensures Window(pending, 0, workers)
      ensures old(peak) <= workers ==> peak <= workers
    {
      for index := 0 to workers
        invariant Window(pending, 0, index)
        invariant old(peak) <= workers ==> peak <= workers
      {
        Submit(pending, index);
        WindowSize(pending, 0, index + 1);
      }
    }

    /** Takes the answer to a day: counts failures, stores what is to be stored. True means stop. */
    method Take(code: string, day: string, answer: Answer, recent: set<string>) returns (abort: bool)
      requires code in files && calls == |log| && failures == Streak(log) < MAX_FAILURES
      modifies this`files, this`calls, this`failures, this`log
      ensures log == old(log) + [Entry(code, day, answer)]
      ensures calls == |log| && failures == Streak(log)
      ensures abort <==> Streak(log) == MAX_FAILURES
      ensures Streak(log) <= MAX_FAILURES
      ensures files == if Storable(Entry(code, day, answer), recent)
                       then old(files)[code := old(files[code]) + [day]] else old(files)
    {
      var status := StatusOf(answer);
      log := log + [Entry(code, day, answer)];
      assert log[..|log| - 1] == old(log);
      calls := calls + 1;
      if status == Failed || status == Refused {
        failures := failures + 1;
        return failures >= MAX_FAILURES;
      }
      failures := 0;
      if status == Data || day !in recent { files := files[code := files[code] + [day]]; }
      abort := false;
    }

    /** One turn of the loop over the pending days: the window slides on by one. */
    method TakeNext(code: string, pending: seq<string>, index: nat, workers: nat, answer: Answer, recent: set<string>)
      returns (abort: bool)
      requires index < |pending| && Window(pending, index, workers) && 1 <= workers
      requires code in files && Counted() && failures < MAX_FAILURES && peak <= workers
      modifies this
      ensures Window(pending, index + 1, workers) && peak <= workers
      ensures log == old(log) + [Entry(code, pending[index], answer)]
      ensures Counted() && (abort <==> failures == MAX_FAILURES)
      ensures files == if Storable(Entry(code, pending[index], answer), recent)
                       then old(files)[code := old(files[code]) + [pending[index]]] else old(files)
    {
      var day := Pop(index);
      Submit(pending, index + workers);
      assert Window(pending, index + 1, workers);
      WindowSize(pending, index + 1, workers);
      abort := Take(code, day, answer, recent);
      assert log[..|log| - 1] == old(log);
    }

    /** The loop over the pending days of a code; `start` is what was on file before the code. */
    method FollowPending(code: string, pending: seq<string>, recent: set<string>, workers: nat, answer: nat -> Answer,
                         untilReached: nat -> bool, ghost start: map<string, seq<string>>)
      returns (stopped: Option<Outcome>, ghost taken: seq<Entry>)
      requires Window(pending, 0, workers) && 1 <= workers && Progress(start, files, [], code, pending, recent)
      requires Counted() && failures < MAX_FAILURES && peak <= workers
      modifies this
      ensures peak <= workers && log == old(log) + taken
      ensures Counted()
      ensures Progress(start, files, taken, code, pending, recent) && AnsweredBy(taken, answer)
      ensures stopped.None? ==> |taken| == |pending| && failures < MAX_FAILURES && futures == map[]
      ensures stopped.Some? && failures == MAX_FAILURES ==> stopped.value == Aborted
      ensures stopped.Some? && failures < MAX_FAILURES ==>
                |taken| < |pending| && pending[|taken|] in pending && stopped.value == Paused(|log|, code, pending[|taken|])
    {
      taken := [];
      ghost var logBefore := log;
      assert log == logBefore + taken;
      var index := 0;
      while index < |pending|
        invariant index == |taken| <= |pending|
        invariant Window(pending, index, workers)
        invariant peak <= workers && log == logBefore + taken
        invariant Counted() && failures < MAX_FAILURES
        invariant Progress(start, files, taken, code, pending, recent) && AnsweredBy(taken, answer)
      {
        if untilReached(index) {
          stopped := Some(Paused(calls, code, pending[index]));
          return;
        }
        var given := answer(index);
        ghost var current, e := files, Entry(code, pending[index], given);
        var abort := TakeNext(code, pending, index, workers, given, recent);
        OneMoreAnswered(taken, e, answer);
        ProgressGoesOn(start, current, taken, code, pending, recent, e, files);
        Associative(logBefore, taken, [e]);
        taken := taken + [e];
        index := index + 1;
        if abort {
          stopped := Some(Aborted);
          return;
        }
      }
      stopped := None;
    }

    /** Reads what is missing, sends the first requests and opens the file. */
    method OpenCode(code: string, days: seq<string>, ghost recent: set<string>, workers: nat) returns (pending: seq<string>)
      requires 1 <= workers && futures == map[] && peak <= workers
      modifies this`files, this`futures, this`peak
      ensures pending == Without(days, Elements(Lines(old(files), code)))
      ensures Window(pending, 0, workers) && peak <= workers
      ensures Progress(old(files), files, [], code, pending, recent)
    {
      pending := PendingDays(code, days);
      FillWindow(pending, workers);
      ProgressStarts(files, code, pending, recent);
      files := files[code := Lines(files, code)];
    }

    /** One code: its pending days in order, with the window refilled after each answer. */
    method FetchCode(code: string, days: seq<string>, recent: set<string>, workers: nat,
                     answer: nat -> Answer, untilReached: nat -> bool)
      returns (stopped: Option<Outcome>, ghost taken: seq<Entry>)
      requires 1 <= workers && futures == map[]
      requires Counted() && failures < MAX_FAILURES && peak <= workers
      modifies this
      ensures peak <= workers && Counted()
      ensures log == old(log) + taken && Served(old(files), files, taken, code, days, recent)
      ensures AnsweredBy(taken, answer) && TookInOrder(taken, code, Without(days, Elements(Lines(old(files), code))))
      ensures stopped.None? ==> futures == map[] && failures < MAX_FAILURES && AllTaken(Lines(old(files), code), taken, days)
      ensures stopped.Some? ==> !stopped.value.Invalid? && !stopped.value.Finished? && (stopped.value == Aborted <==> failures == MAX_FAILURES)
      ensures stopped.Some? && stopped.value.Paused? ==>
                stopped.value.calls == |log| && stopped.value.code == code && stopped.value.day in days
    {
      var pending := OpenCode(code, days, recent, workers);
      stopped, taken := FollowPending(code, pending, recent, workers, answer, untilReached, old(files));
      futures := map[];
      CodeIsServed(old(files), files, taken, code, pending, recent, days);
    }

    /**
     A run over some codes. Files only grow, by what the log says; a run that finishes leaves a day
     out only if it failed, was refused, or came back empty for a recent session; a run aborts exactly
     at the twentieth failure in a row, counted across codes.
     */
    method Fetch(codes: seq<string>, days: seq<string>, workers: int,
                 answer: (nat, nat) -> Answer, untilReached: (nat, nat) -> bool) returns (outcome: Outcome)
      requires Valid()
      modifies this
      ensures outcome.Invalid? <==> !(1 <= workers <= 8)
      ensures outcome.Invalid? ==> files == old(files) && log == []
      ensures !outcome.Invalid? ==> peak <= workers
      ensures Distinct(days) ==> Valid()
      ensures forall code :: GrownBy(old(files), files, log, code, days)
      ensures forall e | e in log :: Expected(e, codes, days, old(files))
      ensures Distinct(codes) && Distinct(days) ==> AskedOnce(log)
      ensures StreakStays(log) && Streak(log) <= MAX_FAILURES
      ensures outcome.Aborted? <==> TwentyFailed(log)
      ensures forall m | 0 <= m < |log| :: !TwentyFailed(log[..m])
      ensures Distinct(codes) ==> AllGiven(log, codes, days, old(files), answer)
      ensures Distinct(codes) && Distinct(days) ==> forall e | e in log :: Filed(e, files, days)
      ensures forall code, day | day in Lines(files, code) :: Brought(log, old(files), code, day)
      ensures forall code :: Lines(old(files), code) <= Lines(files, code)
      ensures outcome.Finished? ==>
                outcome.calls == |log| && AllSettled(files, log, codes, |codes|, days)
      ensures outcome.Paused? ==> outcome.calls == |log| && outcome.code in codes && outcome.day in days
    {
      futures, calls, failures, log, peak := map[], 0, 0, [], 0;
      if !(1 <= workers <= MAX_WORKERS) { return Invalid; }
      var recent := Recent(days);
      SoFarStarts(files, codes, days);
      for k := 0 to |codes|
        invariant futures == map[] && peak <= workers
        invariant Distinct(days) ==> Valid()
        invariant Counted() && failures < MAX_FAILURES
        invariant SoFar(old(files), files, log, codes, k, days)
        invariant AllSettled(files, log, codes, k, days)
        invariant Distinct(codes) ==> AllGiven(log, codes, days, old(files), answer)
      {
        ghost var before, logBefore := files, log;
        var place: nat := k;
        var given := (index: nat) => answer(place, index);
        var stopped, taken := FetchCode(codes[k], days, recent, workers, given, (index: nat) => untilReached(place, index));
        if Distinct(codes) { GivenGoesOn(old(files), before, logBefore, taken, codes, k, days, answer, given); }
        SoFarGoesOn(old(files), before, files, logBefore, taken, codes, k, days);
        if stopped.Some? {
          SoFarIsAll(old(files), files, log, codes, k + 1, days);
          RunEnds(old(files), files, log, codes, days);
          return stopped.value;
        }
        SettledGoesOn(before, files, logBefore, taken, codes, k, days);
      }
      SoFarIsAll(old(files), files, log, codes, |codes|, days);
      RunEnds(old(files), files, log, codes, days);
      outcome := Finished(calls);
    }
  }

  /** The file of a code is what it was, and then what the log stored. */
  predicate GrownBy(start: map<string, seq<string>>, files: map<string, seq<string>>, log: seq<Entry>, code: string, days: seq<string>) {
    Lines(files, code) == Lines(start, code) + Stored(log, code, Recent(days))
  }

  /** Where a run stands after its first codes. */
  ghost predicate SoFar(start: map<string, seq<string>>, files: map<string, seq<string>>, log: seq<Entry>,
                        codes: seq<string>, k: nat, days: seq<string>)
    requires k <= |codes|
  {
    && (forall code {:trigger GrownBy(start, files, log, code, days)} :: GrownBy(start, files, log, code, days))
    && (forall e | e in log :: Expected(e, codes[..k], days, start))
    && (Distinct(codes) && Distinct(days) ==> AskedOnce(log))
  }

  ghost predicate AllSettled(files: map<string, seq<string>>, log: seq<Entry>, codes: seq<string>, k: nat, days: seq<string>)
    requires k <= |codes|
  {
    forall i | 0 <= i < k :: Settled(Lines(files, codes[i]), log, codes[i], days, Recent(days))
  }

  lemma SoFarStarts(files: map<string, seq<string>>, codes: seq<string>, days: seq<string>)
    ensures SoFar(files, files, [], codes, 0, days)
  {
  }

  lemma GrowsFurther(start: map<string, seq<string>>, before: map<string, seq<string>>, files: map<string, seq<string>>,
                     log: seq<Entry>, taken: seq<Entry>, code: string, other: string, days: seq<string>)
    requires files == before[code := Lines(before, code) + Stored(taken, code, Recent(days))]
    requires (forall e | e in taken :: e.code == code) && GrownBy(start, before, log, other, days)
    ensures GrownBy(start, files, log + taken, other, days)
  {
    LinesAfter(before, files, taken, code, other, Recent(days));
    StoredAppend(log, taken, other, Recent(days));
    var lines, first, second := Lines(start, other), Stored(log, other, Recent(days)), Stored(taken, other, Recent(days));
    Associative(lines, first, second);
  }

  lemma SoFarGoesOn(start: map<string, seq<string>>, before: map<string, seq<string>>, files: map<string, seq<string>>,
                    log: seq<Entry>, taken: seq<Entry>, codes: seq<string>, k: nat, days: seq<string>)
    requires k < |codes| && SoFar(start, before, log, codes, k, days)
    requires Served(before, files, taken, codes[k], days, Recent(days))
    ensures SoFar(start, files, log + taken, codes, k + 1, days)
  {
    forall code ensures GrownBy(start, files, log + taken, code, days) {
      assert GrownBy(start, before, log, code, days);
      GrowsFurther(start, before, files, log, taken, codes[k], code, days);
    }
    TakenAreExpected(start, before, log, taken, codes, k, days);
  }

  lemma SoFarIsAll(start: map<string, seq<string>>, files: map<string, seq<string>>, log: seq<Entry>,
                   codes: seq<string>, k: nat, days: seq<string>)
    requires k <= |codes| && SoFar(start, files, log, codes, k, days)
    ensures SoFar(start, files, log, codes, |codes|, days)
    ensures forall e | e in log :: Expected(e, codes, days, start)
  {
    forall e | e in log ensures Expected(e, codes, days, start) { assert Expected(e, codes[..k], days, start); }
    assert codes[..|codes|] == codes;
  }

  lemma SettledGoesOn(before: map<string, seq<string>>, files: map<string, seq<string>>, log: seq<Entry>, taken: seq<Entry>,
                      codes: seq<string>, k: nat, days: seq<string>)
    requires k < |codes| && AllSettled(before, log, codes, k, days)
    requires Served(before, files, taken, codes[k], days, Recent(days)) && AllTaken(Lines(before, codes[k]), taken, days)
    ensures AllSettled(files, log + taken, codes, k + 1, days)
  {
    var recent := Recent(days);
    forall i | 0 <= i < k + 1 ensures Settled(Lines(files, codes[i]), log + taken, codes[i], days, recent) {
      LinesAfter(before, files, taken, codes[k], codes[i], recent);
      if i == k {
        TakenSettles(Lines(before, codes[k]), log, taken, codes[k], days, recent);
      } else {
        SettledStays(Lines(before, codes[i]), log, taken, Stored(taken, codes[i], recent), codes[i], days, recent);
      }
    }
  }

  /** A request that had a reason: a code and day asked for and not on file when the run began. */
  predicate Expected(e: Entry, codes: seq<string>, days: seq<string>, files: map<string, seq<string>>) {
    e.code in codes && e.day in days && e.day !in Lines(files, e.code)
  }

  lemma LinesAfter(before: map<string, seq<string>>, after: map<string, seq<string>>, taken: seq<Entry>,
                   code: string, c: string, recent: set<string>)
    requires after == before[code := Lines(before, code) + Stored(taken, code, recent)]
    requires forall e | e in taken :: e.code == code
    ensures Lines(after, c) == Lines(before, c) + Stored(taken, c, recent)
  {
    if c != code { NothingOfOthers(taken, code, c, recent); }
  }

  /** What one code adds to the log of a run. */
  lemma TakenAreExpected(start: map<string, seq<string>>, before: map<string, seq<string>>, log: seq<Entry>, taken: seq<Entry>,
                         codes: seq<string>, k: nat, days: seq<string>)
    requires k < |codes| && GrownBy(start, before, log, codes[k], days)
    requires forall e | e in log :: Expected(e, codes[..k], days, start)
    requires forall e | e in taken :: e.code == codes[k] && e.day in days && e.day !in Lines(before, codes[k])
    ensures forall e | e in log + taken :: Expected(e, codes[..k + 1], days, start) && Expected(e, codes, days, start)
    ensures Distinct(codes) && AskedOnce(log) && (forall i, j | 0 <= i < j < |taken| :: taken[i].day != taken[j].day)
            ==> AskedOnce(log + taken)
  {
    assert codes[..k + 1] == codes[..k] + [codes[k]];
    forall e | e in log + taken ensures Expected(e, codes[..k + 1], days, start) && Expected(e, codes, days, start) {
      if e in log { assert Expected(e, codes[..k], days, start); }
    }
    if Distinct(codes) && AskedOnce(log) && forall i, j | 0 <= i < j < |taken| :: taken[i].day != taken[j].day {
      var all := log + taken;
      forall i, j | 0 <= i < j < |all| ensures all[i].code != all[j].code || all[i].day != all[j].day {
        if i < |log| <= j {
          assert log[i] in log && Expected(log[i], codes[..k], days, start);
          assert taken[j - |log|] in taken;
        }
      }
    }
  }

  // ---- The files, answer by answer ------------------------------------------------------

  predicate StoredBy(log: seq<Entry>, code: string, day: string, recent: set<string>) {
    exists e :: e in log && e.code == code && e.day == day && Storable(e, recent)
  }

  lemma {:induction false} StoredAre(log: seq<Entry>, code: string, day: string, recent: set<string>)
    ensures day in Stored(log, code, recent) <==> StoredBy(log, code, day, recent)
  {
    if log != [] {
      var front, last := log[..|log| - 1], log[|log| - 1];
      StoredAre(front, code, day, recent);
      assert log == front + [last];
      if StoredBy(front, code, day, recent) {
        var e :| e in front && e.code == code && e.day == day && Storable(e, recent);
        assert e in log;
      }
      if StoredBy(log, code, day, recent) {
        var e :| e in log && e.code == code && e.day == day && Storable(e, recent);
        assert e == last || e in front;
      }
    }
  }

  /** The day is on file exactly if the upstream answered, and with data unless the day is not recent. */
  predicate Filed(e: Entry, files: map<string, seq<string>>, days: seq<string>) {
    e.day in Lines(files, e.code) <==> Answered(e.answer) && (e.answer.trend != [] || !LastThree(days, e.day))
  }

  /** Every line was there before, or some answer of this run brought it. */
  predicate Brought(log: seq<Entry>, start: map<string, seq<string>>, code: string, day: string) {
    day in Lines(start, code) || exists e :: e in log && e.code == code && e.day == day && Answered(e.answer)
  }

  lemma AskedOnceIsUnique(log: seq<Entry>, d: Entry, e: Entry)
    requires AskedOnce(log) && d in log && e in log && d.code == e.code && d.day == e.day
    ensures d == e
  {
    var i, j :| 0 <= i < |log| && 0 <= j < |log| && log[i] == d && log[j] == e;
  }

  lemma EntryIsFiled(start: map<string, seq<string>>, files: map<string, seq<string>>, log: seq<Entry>, days: seq<string>,
                     e: Entry)
    requires GrownBy(start, files, log, e.code, days) && AskedOnce(log)
    requires e in log && e.day !in Lines(start, e.code)
    ensures Filed(e, files, days)
  {
    StoredAre(log, e.code, e.day, Recent(days));
    EntryMeaning(e, days);
    if StoredBy(log, e.code, e.day, Recent(days)) {
      var d :| d in log && d.code == e.code && d.day == e.day && Storable(d, Recent(days));
      AskedOnceIsUnique(log, d, e);
    }
  }

  lemma LinesAreBrought(start: map<string, seq<string>>, files: map<string, seq<string>>, log: seq<Entry>, days: seq<string>,
                        code: string, day: string)
    requires GrownBy(start, files, log, code, days) && day in Lines(files, code)
    ensures Brought(log, start, code, day)
  {
    StoredAre(log, code, day, Recent(days));
    if StoredBy(log, code, day, Recent(days)) {
      var e :| e in log && e.code == code && e.day == day && Storable(e, Recent(days));
      EntryMeaning(e, days);
    }
  }

  /** What a run makes of its answers. */
  lemma RunIsFiled(start: map<string, seq<string>>, files: map<string, seq<string>>, log: seq<Entry>,
                   codes: seq<string>, days: seq<string>)
    requires SoFar(start, files, log, codes, |codes|, days)
    ensures Distinct(codes) && Distinct(days) ==> forall e | e in log :: Filed(e, files, days)
    ensures forall code, day | day in Lines(files, code) :: Brought(log, start, code, day)
    ensures forall code :: Lines(start, code) <= Lines(files, code)
  {
    assert codes[..|codes|] == codes;
    if Distinct(codes) && Distinct(days) {
      forall e | e in log ensures Filed(e, files, days) {
        assert GrownBy(start, files, log, e.code, days) && Expected(e, codes[..|codes|], days, start);
        EntryIsFiled(start, files, log, days, e);
      }
    }
    forall code, day | day in Lines(files, code) ensures Brought(log, start, code, day) {
      assert GrownBy(start, files, log, code, days);
      LinesAreBrought(start, files, log, days, code, day);
    }
    forall code ensures Lines(start, code) <= Lines(files, code) { assert GrownBy(start, files, log, code, days); }
  }

  lemma RunEnds(start: map<string, seq<string>>, files: map<string, seq<string>>, log: seq<Entry>,
                codes: seq<string>, days: seq<string>)
    requires SoFar(start, files, log, codes, |codes|, days) && StreakStays(log)
    ensures Distinct(codes) && Distinct(days) ==> forall e | e in log :: Filed(e, files, days)
    ensures forall code, day | day in Lines(files, code) :: Brought(log, start, code, day)
    ensures forall code :: Lines(start, code) <= Lines(files, code)
    ensures Streak(log) >= MAX_FAILURES <==> TwentyFailed(log)
    ensures forall m | 0 <= m < |log| :: !TwentyFailed(log[..m])
  {
    RunIsFiled(start, files, log, codes, days);
    StreakOfTwenty(log);
    forall m | 0 <= m < |log| ensures !TwentyFailed(log[..m]) {
      StreakStaysThroughout(log, m);
      StreakOfTwenty(log[..m]);
    }
  }

  // ---- Whose answers --------------------------------------------------------------------

  /** The entry is the answer to the request for its day, the `j`-th day not on file for its code. */
  predicate Given(e: Entry, codes: seq<string>, days: seq<string>, start: map<string, seq<string>>,
                  answer: (nat, nat) -> Answer, k: nat, j: nat)
  {
    && k < |codes| && codes[k] == e.code && e.answer == answer(k, j)
    && (var pending := Without(days, Elements(Lines(start, e.code))); j < |pending| && pending[j] == e.day)
  }

  ghost predicate AllGiven(log: seq<Entry>, codes: seq<string>, days: seq<string>, start: map<string, seq<string>>,
                           answer: (nat, nat) -> Answer)
  {
    forall e | e in log :: exists k, j :: Given(e, codes, days, start, answer, k, j)
  }

  lemma {:induction false} NothingStoredFor(log: seq<Entry>, code: string, recent: set<string>)
    requires forall e | e in log :: e.code != code
    ensures Stored(log, code, recent) == []
  {
    if log != [] {
      assert log[|log| - 1] in log && forall e | e in log[..|log| - 1] :: e in log;
      NothingStoredFor(log[..|log| - 1], code, recent);
    }
  }

  lemma UntouchedSoFar(start: map<string, seq<string>>, before: map<string, seq<string>>, log: seq<Entry>,
                       codes: seq<string>, k: nat, days: seq<string>)
    requires k < |codes| && Distinct(codes) && SoFar(start, before, log, codes, k, days)
    ensures Lines(before, codes[k]) == Lines(start, codes[k])
  {
    assert GrownBy(start, before, log, codes[k], days);
    forall e | e in log ensures e.code != codes[k] { assert Expected(e, codes[..k], days, start); }
    NothingStoredFor(log, codes[k], Recent(days));
  }

  lemma GivenGoesOn(start: map<string, seq<string>>, before: map<string, seq<string>>, log: seq<Entry>, taken: seq<Entry>,
                    codes: seq<string>, k: nat, days: seq<string>, answer: (nat, nat) -> Answer, given: nat -> Answer)
    requires k < |codes| && Distinct(codes) && SoFar(start, before, log, codes, k, days)
    requires AllGiven(log, codes, days, start, answer)
    requires (forall j: nat :: given(j) == answer(k, j)) && AnsweredBy(taken, given)
    requires TookInOrder(taken, codes[k], Without(days, Elements(Lines(before, codes[k]))))
    ensures AllGiven(log + taken, codes, days, start, answer)
  {
    UntouchedSoFar(start, before, log, codes, k, days);
    forall e | e in log + taken ensures exists k, j :: Given(e, codes, days, start, answer, k, j) {
      if e !in log {
        var j: nat :| j < |taken| && taken[j] == e;
        assert given(j) == answer(k, j);
        assert Given(e, codes, days, start, answer, k, j);
      }
    }
  }
}
