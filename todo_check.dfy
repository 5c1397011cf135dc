/** `ToDoCheck`: the daily deadline check. On construction it arms a
    timer for the next 07:00 and runs one check at once; each time the
    timer fires it runs the check and arms the timer again. */
module DailyCheck {
  import opened Common
  import opened ToDoEntity

  // ---------------------------------------------------------------------
  // The next trigger instant

  /** The hour of the day the check runs at. */
  const TriggerHour: int := 7
  /** 07:00:00.000 as an offset into the day. */
  const TriggerOffset: int := TriggerHour * MsPerHour

  /** `getHours()` of an instant (local time is taken to be UTC). */
  function HourOf(t: int): int
  {
    (t % MsPerDay) / MsPerHour
  }

  /** Midnight of the day an instant falls in. */
  function DayStart(t: int): int
  {
    t - t % MsPerDay
  }

  /** The instant `scheduleNextCheck` arms the timer for: 07:00:00.000 of
      the current day (`setHours(7, 0, 0, 0)`), moved on by one day
      (`setDate(getDate() + 1)`) when the current hour is 7 or later. */
  function NextCheck(now: int): (r: int)
    ensures r % MsPerDay == TriggerOffset
    ensures now < r <= now + MsPerDay
    ensures HourOf(now) < TriggerHour ==> DayStart(r) == DayStart(now)
    ensures HourOf(now) >= TriggerHour ==> DayStart(r) == DayStart(now) + MsPerDay
  {
    var today := DayStart(now) + TriggerOffset;
    if HourOf(now) >= TriggerHour then today + MsPerDay else today
  }

  /** The current hour is 7 or later exactly when 07:00 of the day has
      been reached. */
  lemma HourAtLeastTrigger(now: int)
    ensures HourOf(now) >= TriggerHour <==> now % MsPerDay >= TriggerOffset
  {
    var m := now % MsPerDay;
    if m >= TriggerOffset {
      assert m / MsPerHour >= TriggerOffset / MsPerHour;
    } else {
      assert m / MsPerHour < TriggerHour;
    }
  }

  /** No 07:00 instant after `now` comes before the one armed. */
  lemma NextCheckIsEarliest(now: int, t: int)
    requires now < t && t % MsPerDay == TriggerOffset
    ensures NextCheck(now) <= t
  {
    HourAtLeastTrigger(now);
    var q, k := now / MsPerDay, t / MsPerDay;
    assert now == q * MsPerDay + now % MsPerDay;
    assert t == k * MsPerDay + TriggerOffset;
    if now % MsPerDay >= TriggerOffset {
      assert NextCheck(now) == (q + 1) * MsPerDay + TriggerOffset;
      assert (q + 1) * MsPerDay <= k * MsPerDay;
    } else {
      assert NextCheck(now) == q * MsPerDay + TriggerOffset;
      assert q * MsPerDay <= k * MsPerDay;
    }
  }

  /** At exactly 07:00:00.000 the timer is armed for the next day, so the
      check does not fire again at once. */
  lemma AtTriggerRollsOver(now: int)
    requires now % MsPerDay == TriggerOffset
    ensures NextCheck(now) == now + MsPerDay
  {
    HourAtLeastTrigger(now);
  }

  /** Before 07:00 the timer is armed for 07:00 of the same day. */
  lemma BeforeTriggerSameDay(now: int)
    requires now % MsPerDay < TriggerOffset
    ensures NextCheck(now) == now + (TriggerOffset - now % MsPerDay)
  {
    HourAtLeastTrigger(now);
  }

  // ---------------------------------------------------------------------
  // One deadline check

  const DeadlineHeader: string := "You have tasks due within 24 hours:"

  /** The collaborator calls a check makes, in order. */
  datatype Call = FetchDeadlines | Notify(message: string) | NotifyTodos(todos: seq<DueToDo>)

  /** What the collaborators answer during one check: the deadline list
      (or the error it rejects with), and how the header notice and the
      batch notice settle. */
  datatype CheckEnv = CheckEnv(fetched: Result<seq<DueToDo>>, header: Outcome, batch: Outcome)

  /** The calls a check made and the errors it logged. */
  datatype CheckRun = CheckRun(calls: seq<Call>, logged: seq<string>)

  /** `checkDeadlines`: fetch the approaching todos and, when there are
      any, send the header and then the batch; the first error stops the
      sequence and is caught and logged, so a check never fails. */
  function CheckDeadlines(env: CheckEnv): (r: CheckRun)
    ensures 1 <= |r.calls| <= 3 && r.calls[0] == FetchDeadlines
    ensures |r.calls| == 1 <==> env.fetched.Err? || env.fetched.value == []
    ensures |r.calls| >= 2 ==> r.calls[1] == Notify(DeadlineHeader)
    ensures |r.calls| == 3 <==> env.fetched.Ok? && env.fetched.value != [] && env.header.Pass?
    ensures |r.calls| == 3 ==> r.calls[2] == NotifyTodos(env.fetched.value)
    ensures |r.logged| <= 1
    ensures r.logged == [] <==> env.fetched.Ok? && (env.fetched.value == [] || (env.header.Pass? && env.batch.Pass?))
    ensures env.fetched.Err? ==> r.logged == [env.fetched.error]
    ensures env.fetched.Ok? && env.fetched.value != [] && env.header.Fail? ==> r.logged == [env.header.error]
    ensures env.fetched.Ok? && env.fetched.value != [] && env.header.Pass? && env.batch.Fail? ==>
              r.logged == [env.batch.error]
  {
    match env.fetched
    case Err(e) => CheckRun([FetchDeadlines], [e])
    case Ok(todos) =>
      if |todos| == 0 then CheckRun([FetchDeadlines], [])
      else
        match env.header
        case Fail(e) => CheckRun([FetchDeadlines, Notify(DeadlineHeader)], [e])
        case Pass =>
          var calls := [FetchDeadlines, Notify(DeadlineHeader), NotifyTodos(todos)];
          match env.batch
          case Fail(e) => CheckRun(calls, [e])
          case Pass => CheckRun(calls, [])
  }

  /** The notices a run sent, in order. */
  function Sent(calls: seq<Call>): seq<Call>
  {
    if calls == [] then []
    else (if calls[0].FetchDeadlines? then [] else [calls[0]]) + Sent(calls[1..])
  }

  /** An empty deadline list sends no notice; a non-empty one whose header
      goes through sends exactly two, the header and then the same list. */
  lemma {:induction false} CheckDeadlinesNotices(env: CheckEnv)
    requires env.fetched.Ok?
    ensures env.fetched.value == [] ==> Sent(CheckDeadlines(env).calls) == []
    ensures env.fetched.value != [] && env.header.Pass? ==>
              Sent(CheckDeadlines(env).calls) == [Notify(DeadlineHeader), NotifyTodos(env.fetched.value)]
    ensures env.fetched.value != [] && env.header.Fail? ==>
              Sent(CheckDeadlines(env).calls) == [Notify(DeadlineHeader)]
  {
    var calls := CheckDeadlines(env).calls;
    if |calls| >= 2 {
      assert calls[1..][1..] == calls[2..];
      assert Sent(calls[1..]) == [calls[1]] + Sent(calls[2..]);
    }
    if |calls| == 3 {
      assert Sent(calls[2..]) == [calls[2]] + Sent(calls[3..]);
      assert calls[3..] == [];
    } else if |calls| == 2 {
      assert calls[2..] == [];
    } else {
      assert calls[1..] == [];
    }
  }

  /** The calls of a sequence of checks, one after the other. */
  function AllCalls(envs: seq<CheckEnv>): seq<Call>
  {
    if envs == [] then [] else AllCalls(envs[..|envs| - 1]) + CheckDeadlines(envs[|envs| - 1]).calls
  }

  /** The errors a sequence of checks logged. */
  function AllLogged(envs: seq<CheckEnv>): seq<string>
  {
    if envs == [] then [] else AllLogged(envs[..|envs| - 1]) + CheckDeadlines(envs[|envs| - 1]).logged
  }

  // ---------------------------------------------------------------------
  // The scheduler

  class ToDoCheck {
    /** The instant the armed timer fires at. */
    var nextCheck: int
    /** Every collaborator call made so far. */
    var calls: seq<Call>
    /** Every error `console.error` logged so far. */
    var logged: seq<string>

    /** The armed timer fires at 07:00 of some day. */
    predicate Armed()
      reads this
    {
      nextCheck % MsPerDay == TriggerOffset
    }

    /** `new ToDoCheck(...)` at `now`: arm the timer, then run the first
        check at once. */
    constructor (now: int, first: CheckEnv)
      ensures Armed()
      ensures nextCheck == NextCheck(now) && now < nextCheck
      ensures calls == CheckDeadlines(first).calls
      ensures logged == CheckDeadlines(first).logged
    {
      nextCheck := NextCheck(now);
      var run := CheckDeadlines(first);
      calls := run.calls;
      logged := run.logged;
    }

    /** The timer fires: the check runs to completion, and at `now`, when
        it has finished, the next timer is armed. */
    method Fire(env: CheckEnv, now: int)
      requires nextCheck <= now
      modifies this
      ensures Armed()
      ensures calls == old(calls) + CheckDeadlines(env).calls
      ensures logged == old(logged) + CheckDeadlines(env).logged
      ensures nextCheck == NextCheck(now)
      ensures old(nextCheck) < nextCheck
    {
      var run := CheckDeadlines(env);
      calls := calls + run.calls;
      logged := logged + run.logged;
      nextCheck := NextCheck(now);
    }

    /** The self-rearming timer over `|envs|` firings: the i-th fires at
        `nextCheck`, its check answers as `envs[i]` and takes `lags[i]`
        milliseconds. No firing is skipped, since a check never fails. */
    method Run(envs: seq<CheckEnv>, lags: seq<nat>)
      requires |envs| == |lags|
      requires Armed()
      modifies this
      ensures Armed()
      ensures calls == old(calls) + AllCalls(envs)
      ensures logged == old(logged) + AllLogged(envs)
      ensures |envs| > 0 ==> old(nextCheck) < nextCheck
      ensures nextCheck >= old(nextCheck)
    {
      var i := 0;
      while i < |envs|
        invariant 0 <= i <= |envs|
        invariant Armed()
        invariant calls == old(calls) + AllCalls(envs[..i])
        invariant logged == old(logged) + AllLogged(envs[..i])
        invariant i > 0 ==> old(nextCheck) < nextCheck
        invariant nextCheck >= old(nextCheck)
      {
        assert envs[..i + 1][..i] == envs[..i];
        Fire(envs[i], nextCheck + lags[i]);
        i := i + 1;
      }
      assert envs[..i] == envs;
    }
  }
}
