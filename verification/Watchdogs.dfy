/** The container watchdog: a sliding-window restart limiter and health streaks
    (observability/watchdog.py). */
module Watchdogs {

  const HOUR := 3600.0

  datatype Service = Service(name: string)

  function Min(x: real, y: real): real {
    if x < y then x else y
  }

  predicate Sorted(log: seq<real>) {
    forall i, j :: 0 <= i <= j < |log| ==> log[i] <= log[j]
  }

  predicate CapAt(log: seq<real>, i: nat, max: nat) {
    i + max < |log| ==> log[i + max] - log[i] > HOUR
  }

  predicate GapAt(log: seq<real>, i: nat, cooldown: real) {
    i + 1 < |log| ==> log[i + 1] - log[i] >= Min(cooldown, HOUR)
  }

  /** The limiter's promise about the recorded restarts of one service: any `max` + 1
      successive ones span more than an hour (so with `max` = 0 there are none), and
      neighbours are a cooldown apart, or an hour if the cooldown is longer. */
  ghost predicate Spaced(log: seq<real>, max: nat, cooldown: real) {
    && (forall i: nat :: i < |log| ==> CapAt(log, i, max))
    && (forall i: nat :: i < |log| ==> GapAt(log, i, cooldown))
  }

  /** The deque is the suffix of the full log from which only entries over an hour old were
      dropped. */
  ghost predicate SuffixOf(recent: seq<real>, log: seq<real>, clock: real) {
    && |recent| <= |log| && recent == log[|log| - |recent|..]
    && forall i :: 0 <= i < |log| - |recent| ==> clock - log[i] > HOUR
  }

  ghost predicate History(recent: seq<real>, log: seq<real>, clock: real, max: nat, cooldown: real) {
    SuffixOf(recent, log, clock) && Sorted(log) && Spaced(log, max, cooldown) && forall i :: 0 <= i < |log| ==> log[i] <= clock
  }

  /** No restart is ever recorded under a cap of zero. */
  lemma {:induction false} CapZeroMeansNone(log: seq<real>, cooldown: real)
    requires Spaced(log, 0, cooldown)
    ensures log == []
  {
    assert |log| > 0 ==> CapAt(log, 0, 0);
  }

  /** Any hour holds at most `max` recorded restarts. */
  lemma {:induction false} HourlyCap(log: seq<real>, max: nat, cooldown: real, i: nat, j: nat)
    requires Sorted(log) && Spaced(log, max, cooldown) && i <= j < |log| && log[j] - log[i] <= 3600.0
    ensures j - i + 1 <= max
  {
    assert CapAt(log, i, max);
  }

  /** Two recorded restarts are a cooldown apart, or an hour if the cooldown is longer. */
  lemma {:induction false} CooldownKept(log: seq<real>, max: nat, cooldown: real, i: nat, j: nat)
    requires Sorted(log) && Spaced(log, max, cooldown) && i < j < |log|
    ensures log[j] - log[i] >= cooldown || log[j] - log[i] >= 3600.0
  {
    assert GapAt(log, i, cooldown);
  }

  lemma {:induction false} AppendedSpaced(recent: seq<real>, log: seq<real>, now: real, done: real, max: nat,
            cooldown: real)
    requires SuffixOf(recent, log, now) && Spaced(log, max, cooldown) && now <= done
    requires recent != [] ==> now - recent[|recent| - 1] >= cooldown
    requires |recent| < max
    ensures Spaced(log + [done], max, cooldown)
  {
    var longer := log + [done];
    forall i: nat | i < |longer|
      ensures CapAt(longer, i, max) && GapAt(longer, i, cooldown)
    {
      if i < |log| {
        assert CapAt(log, i, max) && GapAt(log, i, cooldown);
      }
    }
  }

  lemma {:induction false} AppendedSuffix(recent: seq<real>, log: seq<real>, now: real, done: real)
    requires SuffixOf(recent, log, now) && now <= done
    ensures SuffixOf(recent + [done], log + [done], done)
  {
  }

  lemma {:induction false} Appended(recent: seq<real>, log: seq<real>, now: real, done: real, max: nat, cooldown: real)
    requires History(recent, log, now, max, cooldown) && now <= done
    requires recent != [] ==> now - recent[|recent| - 1] >= cooldown
    requires |recent| < max
    ensures History(recent + [done], log + [done], done, max, cooldown)
  {
    AppendedSpaced(recent, log, now, done, max, cooldown);
    AppendedSuffix(recent, log, now, done);
    hide Spaced, SuffixOf;
    AppendedSorted(log, now, done);
    hide Sorted;
  }

  lemma {:induction false} AppendedSorted(log: seq<real>, now: real, done: real)
    requires Sorted(log) && (forall i :: 0 <= i < |log| ==> log[i] <= now) && now <= done
    ensures Sorted(log + [done]) && forall i :: 0 <= i < |log + [done]| ==> (log + [done])[i] <= done
  {
  }

  lemma {:induction false} DropOldest(recent: seq<real>, log: seq<real>, now: real, max: nat, cooldown: real)
    requires History(recent, log, now, max, cooldown) && recent != [] && now - recent[0] > HOUR
    ensures History(recent[1..], log, now, max, cooldown)
  {
    hide Spaced, Sorted;
  }

  /** After pruning, the deque is exactly the last hour of the log. */
  lemma {:induction false} LastHour(recent: seq<real>, log: seq<real>, now: real, max: nat, cooldown: real)
    requires History(recent, log, now, max, cooldown) && (recent != [] ==> now - recent[0] <= HOUR)
    ensures forall i :: 0 <= i < |log| ==> (now - log[i] <= HOUR <==> |log| - |recent| <= i)
    ensures recent != [] ==> recent[|recent| - 1] == log[|log| - 1]
  {
    hide Spaced;
    var k := |log| - |recent|;
    assert recent != [] ==> recent[0] == log[k];
  }

  lemma {:induction false} Suffix(recent: seq<real>, log: seq<real>, now: real, max: nat, cooldown: real)
    requires History(recent, log, now, max, cooldown)
    ensures |recent| <= |log| && recent == log[|log| - |recent|..]
  {
    hide Spaced, Sorted;
  }

  lemma {:induction false} EmptyHistory(now: real, max: nat, cooldown: real)
    ensures History([], [], now, max, cooldown)
  {
  }

  lemma {:induction false} HistoryLater(recent: seq<real>, log: seq<real>, now: real, later: real, max: nat,
            cooldown: real)
    requires History(recent, log, now, max, cooldown) && now <= later
    ensures History(recent, log, later, max, cooldown)
  {
    hide Spaced, Sorted;
  }

  /** The loop of `_allowed`: afterwards the deque is exactly the last hour of the log. */
  method Prune(recent: seq<real>, ghost log: seq<real>, now: real, ghost max: nat, ghost cooldown: real)
    returns (history: seq<real>, ghost k: nat)
    requires History(recent, log, now, max, cooldown)
    ensures History(history, log, now, max, cooldown)
    ensures Window(log, now, k) && history == log[k..]
  {
    hide History;
    history := recent;
    while history != [] && now - history[0] > HOUR
      invariant History(history, log, now, max, cooldown)
      decreases |history|
    {
      DropOldest(history, log, now, max, cooldown);
      history := history[1..];
    }
    LastHour(history, log, now, max, cooldown);
    Suffix(history, log, now, max, cooldown);
    k := |log| - |history|;
  }

  // ----- Streaks ----------------------------------------------------------------------

  /** What a pass saw of a running service, and whether it restarted it for being unhealthy. */
  datatype Sighting = Healthy | Unhealthy | Restarted

  /** Unhealthy sightings since the last healthy one or the last restart. */
  function Streak(h: seq<Sighting>): nat {
    if h == [] || h[|h| - 1] != Unhealthy then 0 else Streak(h[..|h| - 1]) + 1
  }

  ghost predicate Earned(h: seq<Sighting>, checks: nat) {
    forall i :: 0 <= i < |h| && h[i] == Restarted ==> Streak(h[..i]) >= checks
  }

  lemma {:induction false} StreakIsTrailing(h: seq<Sighting>, n: nat)
    requires n <= Streak(h)
    ensures n <= |h| && forall i :: |h| - n <= i < |h| ==> h[i] == Unhealthy
  {
    if n == 0 {
    } else {
      StreakIsTrailing(h[..|h| - 1], n - 1);
    }
  }

  /** A streak of `n` means that the last `n` sightings were unhealthy, and conversely. */
  lemma {:induction false} StreakMeans(h: seq<Sighting>, n: nat)
    ensures n <= Streak(h) <==> n <= |h| && forall i :: |h| - n <= i < |h| ==> h[i] == Unhealthy
  {
    if n <= Streak(h) {
      StreakIsTrailing(h, n);
    } else if n <= |h| && forall i :: |h| - n <= i < |h| ==> h[i] == Unhealthy {
      StreakMeans(h[..|h| - 1], n - 1);
    }
  }

  /** A service is restarted for its health only right after that many unhealthy sightings in
      a row, none of them counted for an earlier restart. */
  lemma {:induction false} RestartsAreEarned(h: seq<Sighting>, checks: nat, i: nat)
    requires Earned(h, checks) && i < |h| && h[i] == Restarted
    ensures checks <= i && forall j :: i - checks <= j < i ==> h[j] == Unhealthy
  {
    StreakIsTrailing(h[..i], checks);
  }

  lemma {:induction false} SeeMore(h: seq<Sighting>, s: Sighting, checks: nat)
    requires Earned(h, checks) && (s == Restarted ==> Streak(h) >= checks)
    ensures Earned(h + [s], checks)
    ensures Streak(h + [s]) == if s == Unhealthy then Streak(h) + 1 else 0
  {
    assert (h + [s])[..|h|] == h;
    assert forall i :: 0 <= i <= |h| ==> (h + [s])[..i] == h[..i];
    assert h[..|h|] == h;
  }

  type Sightings = map<Service, seq<Sighting>>

  function SeenOf(sightings: Sightings, service: Service): seq<Sighting> {
    if service in sightings then sightings[service] else []
  }

  function Saw(sightings: Sightings, service: Service, s: Sighting): Sightings {
    sightings[service := SeenOf(sightings, service) + [s]]
  }

  function StreakOf(streaks: map<Service, nat>, service: Service): nat {
    if service in streaks then streaks[service] else 0
  }

  /** The stored streaks are those of the sightings, and every restart was earned. */
  ghost predicate StreaksOk(streaks: map<Service, nat>, sightings: Sightings, checks: nat) {
    forall s :: StreakOf(streaks, s) == Streak(SeenOf(sightings, s)) && Earned(SeenOf(sightings, s), checks)
  }

  lemma {:induction false} StreaksElsewhere(streaks: map<Service, nat>, after: map<Service, nat>, sightings: Sightings,
                                            checks: nat, service: Service, s: Sighting)
    requires StreaksOk(streaks, sightings, checks)
    requires forall t :: t != service ==> StreakOf(after, t) == StreakOf(streaks, t)
    requires var seen := SeenOf(sightings, service) + [s]; StreakOf(after, service) == Streak(seen) && Earned(seen, checks)
    ensures StreaksOk(after, Saw(sightings, service, s), checks)
  {
    hide Streak, Earned;
    var more := Saw(sightings, service, s);
    forall t
      ensures StreakOf(after, t) == Streak(SeenOf(more, t)) && Earned(SeenOf(more, t), checks)
    {
      if t != service {
        assert StreakOf(streaks, t) == Streak(SeenOf(sightings, t)) && Earned(SeenOf(sightings, t), checks);
        assert SeenOf(more, t) == SeenOf(sightings, t);
      } else {
        assert SeenOf(more, t) == SeenOf(sightings, t) + [s];
      }
    }
    hide Saw;
  }

  lemma {:induction false} StreakLonger(streaks: map<Service, nat>, sightings: Sightings, checks: nat,
            service: Service, longer: nat)
    requires StreaksOk(streaks, sightings, checks) && longer == StreakOf(streaks, service) + 1
    ensures StreaksOk(streaks[service := longer], Saw(sightings, service, Unhealthy), checks)
    ensures StreakOf(streaks[service := longer], service) == longer
  {
    assert StreakOf(streaks, service) == Streak(SeenOf(sightings, service)) && Earned(SeenOf(sightings, service), checks);
    SeeMore(SeenOf(sightings, service), Unhealthy, checks);
    hide Streak, Earned, Saw, SeenOf, StreaksOk;
    StreaksElsewhere(streaks, streaks[service := longer], sightings, checks, service, Unhealthy);
  }

  lemma {:induction false} StreakCleared(streaks: map<Service, nat>, sightings: Sightings, checks: nat,
            service: Service, s: Sighting)
    requires StreaksOk(streaks, sightings, checks) && s != Unhealthy
    requires s == Restarted ==> StreakOf(streaks, service) >= checks
    ensures StreaksOk(streaks - {service}, Saw(sightings, service, s), checks)
  {
    assert StreakOf(streaks, service) == Streak(SeenOf(sightings, service)) && Earned(SeenOf(sightings, service), checks);
    SeeMore(SeenOf(sightings, service), s, checks);
    hide Streak, Earned, Saw, SeenOf, StreaksOk;
    StreaksElsewhere(streaks, streaks - {service}, sightings, checks, service, s);
  }

  // ----- The watchdog -----------------------------------------------------------------

  type Log = map<Service, seq<real>>

  function LogOf(log: Log, service: Service): seq<real> {
    if service in log then log[service] else []
  }

  ghost predicate LimiterOk(restarts: Log, log: Log, clock: real, max: nat, cooldown: real) {
    forall s :: History(LogOf(restarts, s), LogOf(log, s), clock, max, cooldown)
  }

  lemma {:induction false} LimiterLater(restarts: Log, log: Log, clock: real, later: real, max: nat, cooldown: real)
    requires LimiterOk(restarts, log, clock, max, cooldown) && clock <= later
    ensures LimiterOk(restarts, log, later, max, cooldown)
  {
    hide History;
    forall s
      ensures History(LogOf(restarts, s), LogOf(log, s), later, max, cooldown)
    {
      HistoryLater(LogOf(restarts, s), LogOf(log, s), clock, later, max, cooldown);
    }
  }

  lemma {:induction false} LimiterUpdate(restarts: Log, log: Log, clock: real, max: nat, cooldown: real,
            service: Service,
                                         recent: seq<real>, full: seq<real>)
    requires LimiterOk(restarts, log, clock, max, cooldown) && History(recent, full, clock, max, cooldown)
    ensures LimiterOk(restarts[service := recent], log[service := full], clock, max, cooldown)
  {
    hide History;
    var after, longer := restarts[service := recent], log[service := full];
    forall s
      ensures History(LogOf(after, s), LogOf(longer, s), clock, max, cooldown)
    {
      assert History(LogOf(restarts, s), LogOf(log, s), clock, max, cooldown);
    }
  }

  lemma {:induction false} NothingYet(max: nat, cooldown: real)
    ensures LimiterOk(map[], map[], 0.0, max, cooldown)
  {
    EmptyHistory(0.0, max, cooldown);
  }

  datatype Why = COOLDOWN | HOURLY_CAP

  datatype Verdict = Go | Blocked(why: Why)

  /** Recorded restarts within the hour before `now`. */
  function Recent(log: seq<real>, now: real): nat {
    if log == [] then 0 else Recent(log[..|log| - 1], now) + if now - log[|log| - 1] <= HOUR then 1 else 0
  }

  /** The verdict in terms of everything ever recorded: too soon after the last restart, unless
      that is over an hour ago; else too many within the hour. */
  function Judged(log: seq<real>, now: real, max: nat, cooldown: real): Verdict {
    if log != [] && now - log[|log| - 1] <= HOUR && now - log[|log| - 1] < cooldown then Blocked(COOLDOWN)
    else if Recent(log, now) >= max then Blocked(HOURLY_CAP)
    else Go
  }

  ghost predicate Window(log: seq<real>, now: real, k: nat) {
    k <= |log| && forall i :: 0 <= i < |log| ==> (now - log[i] <= HOUR <==> k <= i)
  }

  lemma {:induction false} RecentIsWindow(log: seq<real>, now: real, k: nat)
    requires Window(log, now, k)
    ensures Recent(log, now) == |log| - k
  {
    if log == [] {
    } else {
      var n := |log| - 1;
      RecentIsWindow(log[..n], now, if k <= n then k else n);
    }
  }

  lemma {:induction false} JudgedByWindow(log: seq<real>, now: real, max: nat, cooldown: real, k: nat)
    requires Window(log, now, k)
    ensures var recent := log[k..];
            Judged(log, now, max, cooldown) ==
            if recent != [] && now - recent[|recent| - 1] < cooldown then Blocked(COOLDOWN)
            else if |recent| >= max then Blocked(HOURLY_CAP)
            else Go
  {
    RecentIsWindow(log, now, k);
    hide Recent;
  }

  /** The verdict read off the recorded restarts themselves: the last one is too recent; else
      the last `max` of them all fall within the hour. */
  lemma {:induction false} JudgedMeans(log: seq<real>, now: real, max: nat, cooldown: real, k: nat)
    requires Sorted(log) && Window(log, now, k)
    ensures var v, n := Judged(log, now, max, cooldown), |log|;
            var soon := n > 0 && now - log[n - 1] <= 3600.0 && now - log[n - 1] < cooldown;
            && (v == Blocked(COOLDOWN) <==> soon)
            && (v == Blocked(HOURLY_CAP) <==> !soon && (max == 0 || (n >= max && now - log[n - max] <= 3600.0)))
            && (v == Go <==> !soon && max > 0 && (n >= max ==> now - log[n - max] > 3600.0))
  {
    RecentIsWindow(log, now, k);
    hide Recent, Sorted;
  }

  lemma {:induction false} WindowFound(log: seq<real>, now: real) returns (k: nat)
    requires Sorted(log)
    ensures Window(log, now, k)
  {
    if log == [] || now - log[|log| - 1] > HOUR {
      k := |log|;
    } else {
      k := WindowFound(log[..|log| - 1], now);
      assert forall i :: 0 <= i < |log| - 1 ==> log[..|log| - 1][i] == log[i];
    }
  }

  lemma {:induction false} InOrderOf(recent: seq<real>, log: seq<real>, clock: real, max: nat, cooldown: real)
    requires History(recent, log, clock, max, cooldown)
    ensures Sorted(log)
  {
    hide Spaced, SuffixOf, Sorted;
  }

  lemma {:induction false} GoSpaced(history: seq<real>, now: real, cooldown: real)
    requires LongAgo(history, now, cooldown)
    ensures history != [] ==> now - history[|history| - 1] >= cooldown
  {
  }

  lemma {:induction false} RecordedIs(log: Log, c: Container)
    ensures Recorded(log, c) == log[c.service := LogOf(log, c.service) + [c.done]]
  {
  }

  /** The two refusals of `_allowed`, in the order they are looked at. */
  method Judge(history: seq<real>, ghost log: seq<real>, ghost k: nat, now: real, max: nat,
            cooldown: real) returns (v: Verdict)
    requires Window(log, now, k) && history == log[k..]
    ensures v == Judged(log, now, max, cooldown)
    ensures v == Go ==> |history| < max && LongAgo(history, now, cooldown)
  {
    JudgedByWindow(log, now, max, cooldown, k);
    hide Judged, Window;
    if history != [] && now - history[|history| - 1] < cooldown {
      return Blocked(COOLDOWN);
    }
    return if |history| >= max then Blocked(HOURLY_CAP) else Go;
  }

  predicate LongAgo(recent: seq<real>, now: real, cooldown: real) {
    recent != [] ==> now - recent[|recent| - 1] >= cooldown
  }

  /** How a restart call ends: docker reports the restart, or the call fails, either before the
      container was restarted or, by a timeout on the answer, after. */
  datatype Docker = Reported | FailedAfterRestart | FailedBefore

  /** One running container: its service and health, and what a restart of it would do; the
      clock is read before the limiter looks and again when docker has answered. */
  datatype Container = Container(service: Service, unhealthy: bool, docker: Docker, now: real, done: real)

  function Recorded(log: Log, c: Container): Log {
    log[c.service := LogOf(log, c.service) + [c.done]]
  }

  // ----- Restarts that were made and restarts that were recorded ----------------------

  /** The restarts recorded, and the restarts docker made, after the first `n` attempts. */
  function Books(attempts: seq<Container>, n: nat, max: nat, cooldown: real): (Log, Log)
    requires n <= |attempts|
  {
    if n == 0 then (map[], map[])
    else
      var (log, made) := Books(attempts, n - 1, max, cooldown);
      var c := attempts[n - 1];
      if Judged(LogOf(log, c.service), c.now, max, cooldown) != Go || c.docker == FailedBefore then (log, made)
      else (if c.docker == Reported then Recorded(log, c) else log, Recorded(made, c))
  }

  /** Attempt `i` went ahead, and docker restarted the container and reported a failure. */
  predicate Hidden(attempts: seq<Container>, i: nat, max: nat, cooldown: real)
    requires i < |attempts|
  {
    && attempts[i].docker == FailedAfterRestart
    && Judged(LogOf(Books(attempts, i, max, cooldown).0, attempts[i].service), attempts[i].now, max, cooldown) == Go
  }

  /** Nothing is recorded that was not made, and each hidden restart is missing for good. */
  lemma {:induction false} MadeAtLeast(attempts: seq<Container>, n: nat, max: nat, cooldown: real, s: Service)
    requires n <= |attempts|
    ensures var (log, made) := Books(attempts, n, max, cooldown);
            && |LogOf(log, s)| <= |LogOf(made, s)|
            && ((exists i :: 0 <= i < n && attempts[i].service == s && Hidden(attempts, i, max, cooldown)) ==>
                  |LogOf(log, s)| < |LogOf(made, s)|)
  {
    hide Judged;
    if n == 0 {
    } else {
      MadeAtLeast(attempts, n - 1, max, cooldown, s);
    }
  }

  lemma {:induction false} AllReported(attempts: seq<Container>, n: nat, max: nat, cooldown: real)
    requires n <= |attempts| && forall i :: 0 <= i < n ==> !Hidden(attempts, i, max, cooldown)
    ensures Books(attempts, n, max, cooldown).0 == Books(attempts, n, max, cooldown).1
  {
    hide Judged;
    if n == 0 {
    } else {
      AllReported(attempts, n - 1, max, cooldown);
      assert !Hidden(attempts, n - 1, max, cooldown);
    }
  }

  lemma {:induction false} BooksPrefix(attempts: seq<Container>, c: Container, n: nat, max: nat, cooldown: real)
    requires n <= |attempts|
    ensures Books(attempts + [c], n, max, cooldown) == Books(attempts, n, max, cooldown)
  {
    hide Judged;
    if n == 0 {
    } else {
      BooksPrefix(attempts, c, n - 1, max, cooldown);
    }
  }

  ghost predicate NoneHidden(attempts: seq<Container>, max: nat, cooldown: real) {
    forall i :: 0 <= i < |attempts| ==> !Hidden(attempts, i, max, cooldown)
  }

  /** The record is what was made exactly if no restart was hidden by a failure report. */
  lemma {:induction false} MadeIsRecordedIff(attempts: seq<Container>, max: nat, cooldown: real)
    ensures Books(attempts, |attempts|, max, cooldown).0 == Books(attempts, |attempts|, max, cooldown).1 <==>
            NoneHidden(attempts, max, cooldown)
  {
    hide Books, Hidden;
    if NoneHidden(attempts, max, cooldown) {
      AllReported(attempts, |attempts|, max, cooldown);
    } else {
      var i :| 0 <= i < |attempts| && Hidden(attempts, i, max, cooldown);
      MadeAtLeast(attempts, |attempts|, max, cooldown, attempts[i].service);
    }
  }

  /** The clock runs on from attempt to attempt. */
  ghost predicate InOrder(attempts: seq<Container>) {
    && (forall i :: 0 <= i < |attempts| ==> attempts[i].now <= attempts[i].done)
    && (forall i, j :: 0 <= i < j < |attempts| ==> attempts[i].done <= attempts[j].now)
  }

  /** The restarts made of each service keep the limiter's promise. */
  ghost predicate MadeSpaced(attempts: seq<Container>, max: nat, cooldown: real) {
    forall s :: Spaced(LogOf(Books(attempts, |attempts|, max, cooldown).1, s), max, cooldown)
  }

  function Zeros(n: nat): seq<real> {
    seq(n, _ => 0.0)
  }

  /** Restarts that are reported as failed are all let through. */
  lemma {:induction false} AllHidden(attempts: seq<Container>, n: nat, s: Service, max: nat, cooldown: real)
    requires n <= |attempts| && max > 0
    requires forall i :: 0 <= i < |attempts| ==> attempts[i] == Container(s, true, FailedAfterRestart, 0.0, 0.0)
    ensures Books(attempts, n, max, cooldown).0 == map[]
    ensures LogOf(Books(attempts, n, max, cooldown).1, s) == Zeros(n)
  {
    if n == 0 {
    } else {
      AllHidden(attempts, n - 1, s, max, cooldown);
      assert Judged([], 0.0, max, cooldown) == Go;
      hide Judged;
    }
  }

  lemma {:induction false} NeverGo(attempts: seq<Container>, n: nat, cooldown: real)
    requires n <= |attempts|
    ensures Books(attempts, n, 0, cooldown).1 == map[]
  {
    if n == 0 {
    } else {
      NeverGo(attempts, n - 1, cooldown);
    }
  }

  /** The input: a service whose restart always outlasts the answer is restarted `max` + 1 times
      in one instant. */
  lemma {:induction false} HiddenRestartsBreakTheCap(s: Service, max: nat,
            cooldown: real) returns (attempts: seq<Container>)
    requires max > 0
    ensures InOrder(attempts) && |attempts| == max + 1 && !MadeSpaced(attempts, max, cooldown)
    ensures forall i :: 0 <= i < |attempts| ==> attempts[i] == Container(s, true, FailedAfterRestart, 0.0, 0.0)
  {
    attempts := seq(max + 1, _ => Container(s, true, FailedAfterRestart, 0.0, 0.0));
    AllHidden(attempts, max + 1, s, max, cooldown);
    assert !CapAt(Zeros(max + 1), 0, max);
    assert !Spaced(LogOf(Books(attempts, |attempts|, max, cooldown).1, s), max, cooldown);
  }

  /** Whatever docker does, the restarts made keep the promise only if there are none. */
  lemma {:induction false} MadeSpacedIff(max: nat, cooldown: real)
    ensures (forall attempts :: InOrder(attempts) ==> MadeSpaced(attempts, max, cooldown)) <==> max == 0
  {
    if max > 0 {
      var attempts := HiddenRestartsBreakTheCap(Service("s"), max, cooldown);
    } else {
      forall attempts
        ensures MadeSpaced(attempts, max, cooldown)
      {
        NeverGo(attempts, |attempts|, cooldown);
      }
    }
  }

  class Watchdog {
    const unhealthyChecks: nat
    const twinChecks: nat
    const cooldown: nat
    const maxRestartsPerHour: nat
    const gatewayService: Service
    var unhealthyStreak: map<Service, nat>
    var twinStreak: nat
    var restarts: Log
    var suppressed: set<Service>
    ghost var log: Log                      // every recorded restart
    ghost var attempts: seq<Container>      // every call of `_restart`
    ghost var sightings: Sightings
    ghost var twinSeen: seq<Sighting>       // what each pass saw of the twin
    ghost var clock: real           // the latest reading

    constructor (unhealthyChecks: nat, twinChecks: nat, cooldown: nat, maxRestartsPerHour: nat, gatewayService: Service)
      requires unhealthyChecks > 0 && twinChecks > 0
      ensures Valid() && log == map[] && sightings == map[] && attempts == [] && twinSeen == []
      ensures this.unhealthyChecks == unhealthyChecks && this.twinChecks == twinChecks && this.cooldown == cooldown
      ensures this.maxRestartsPerHour == maxRestartsPerHour && this.gatewayService == gatewayService
      ensures unhealthyStreak == map[] && twinStreak == 0 && restarts == map[] && suppressed == {}
    {
      this.unhealthyChecks, this.twinChecks, this.cooldown := unhealthyChecks, twinChecks, cooldown;
      this.maxRestartsPerHour, this.gatewayService := maxRestartsPerHour, gatewayService;
      unhealthyStreak, twinStreak, restarts, suppressed := map[], 0, map[], {};
      log, attempts, sightings, twinSeen, clock := map[], [], map[], [], 0.0;
      NothingYet(maxRestartsPerHour, cooldown as real);
    }

    /** The deques are the ends of the recorded restarts, and these are spaced. */
    ghost predicate Limited()
      reads `restarts, `log, `clock, `attempts
    {
      && LimiterOk(restarts, log, clock, maxRestartsPerHour, cooldown as real)
      && log == Books(attempts, |attempts|, maxRestartsPerHour, cooldown as real).0
    }

    ghost predicate TwinOk()
      reads `twinStreak, `twinSeen
    {
      twinStreak == Streak(twinSeen) && Earned(twinSeen, twinChecks)
    }

    ghost predicate Valid()
      reads `restarts, `log, `clock, `attempts, `unhealthyStreak, `sightings, `twinStreak, `twinSeen
    {
      Limited() && StreaksOk(unhealthyStreak, sightings, unhealthyChecks) && TwinOk()
    }

    /** As long as no restart was reported as failed, those made keep the limiter's promise. */
    lemma {:induction false} MadeAsPromised()
      requires Valid() && NoneHidden(attempts, maxRestartsPerHour, cooldown as real)
      ensures MadeSpaced(attempts, maxRestartsPerHour, cooldown as real)
    {
      MadeIsRecordedIff(attempts, maxRestartsPerHour, cooldown as real);
      hide StreaksOk, Spaced, Books, Hidden;
      forall s
        ensures Spaced(LogOf(log, s), maxRestartsPerHour, cooldown as real)
      {
        LimiterAt(restarts, log, clock, maxRestartsPerHour, cooldown as real, s);
      }
    }

    /** What `Valid` says of the recorded restarts of one service: the cap of any hour, and the
        cooldown between any two. */
    lemma {:induction false} RecordedAsPromised(s: Service, i: nat, j: nat)
      requires Valid() && s in log && i <= j < |log[s]|
      ensures log[s][j] - log[s][i] <= 3600.0 ==> j - i + 1 <= maxRestartsPerHour
      ensures i < j ==> log[s][j] - log[s][i] >= cooldown as real || log[s][j] - log[s][i] >= 3600.0
    {
      hide StreaksOk, Spaced, Books, Streak;
      LimiterAt(restarts, log, clock, maxRestartsPerHour, cooldown as real, s);
      if log[s][j] - log[s][i] <= 3600.0 {
        HourlyCap(log[s], maxRestartsPerHour, cooldown as real, i, j);
      }
      if i < j {
        CooldownKept(log[s], maxRestartsPerHour, cooldown as real, i, j);
      }
    }

    /** `_allowed`: whether the restart may go ahead, as a function of the full log. The deque
        it leaves is `history`. */
    method Allowed(service: Service, now: real) returns (v: Verdict, history: seq<real>)
      requires Limited() && clock <= now
      modifies `restarts, `clock
      ensures Limited() && clock == now && restarts == old(restarts)[service := history]
      ensures v == Judged(LogOf(log, service), now, maxRestartsPerHour, cooldown as real)
      ensures service !in log ==> (v == Go <==> maxRestartsPerHour > 0) && v != Blocked(COOLDOWN)
      ensures service in log ==>
                var made, max := log[service], maxRestartsPerHour;
                var soon := made != [] && now - made[|made| - 1] <= 3600.0 && now - made[|made| - 1] < cooldown as real;
                && (v == Blocked(COOLDOWN) <==> soon)
                && (v == Go <==> !soon && max > 0 && (|made| >= max ==> now - made[|made| - max] > 3600.0))
      ensures v == Go ==> |history| < maxRestartsPerHour && LongAgo(history, now, cooldown as real)
    {
      hide LimiterOk, History, LogOf, Window, Judged, LongAgo, SuffixOf;
      ghost var k;
      LimiterLater(restarts, log, clock, now, maxRestartsPerHour, cooldown as real);
      LimiterAt(restarts, log, now, maxRestartsPerHour, cooldown as real, service);
      history, k := Prune(LogOf(restarts, service), LogOf(log, service), now, maxRestartsPerHour, cooldown as real);
      SamePrune(restarts, log, now, maxRestartsPerHour, cooldown as real, service, history);
      v := Judge(history, LogOf(log, service), k, now, maxRestartsPerHour, cooldown as real);
      AllowedMeans(restarts, log, now, maxRestartsPerHour, cooldown as real, service, k);
      clock := now;
      restarts := restarts[service := history];
    }

    ghost predicate Restarts(before: Log, c: Container) {
      c.docker == Reported && Judged(LogOf(before, c.service), c.now, maxRestartsPerHour, cooldown as real) == Go
    }

    ghost function Suppression(before: set<Service>, history: Log, c: Container): set<Service> {
      if Judged(LogOf(history, c.service), c.now, maxRestartsPerHour, cooldown as real) == Go
      then before - {c.service} else before + {c.service}
    }

    lemma {:induction false} OneMore(c: Container)
      requires Limited()
      ensures Books(attempts + [c], |attempts| + 1, maxRestartsPerHour, cooldown as real).0 ==
              if Restarts(log, c) then Recorded(log, c) else log
    {
      hide Judged, LimiterOk, Recorded;
      BooksPrefix(attempts, c, |attempts|, maxRestartsPerHour, cooldown as real);
    }

    /** `_restart`: goes ahead iff the limiter lets it, and records the restart iff docker
        reports it; a refusal marks the service, a go unmarks it. */
    method Restart(c: Container) returns (done: bool)
      requires Limited() && clock <= c.now <= c.done
      modifies `restarts, `log, `clock, `suppressed, `attempts
      ensures Limited() && c.now <= clock <= c.done && attempts == old(attempts) + [c]
      ensures done == Restarts(old(log), c)
      ensures log == if done then Recorded(old(log), c) else old(log)
      ensures suppressed == Suppression(old(suppressed), old(log), c)
      ensures var made, max := if c.service in old(log) then old(log)[c.service] else [], maxRestartsPerHour;
              var soon := made != [] && c.now - made[|made| - 1] <= 3600.0 && c.now - made[|made| - 1] < cooldown as real;
              var go := !soon && max > 0 && (|made| >= max ==> c.now - made[|made| - max] > 3600.0);
              && done == (go && c.docker == Reported)
              && log == (if done then old(log)[c.service := made + [c.done]] else old(log))
              && suppressed == if go then old(suppressed) - {c.service} else old(suppressed) + {c.service}
    {
      hide *;
      RestartMeans(c, suppressed);
      done := Attempt(c);
    }

    /** The body of `_restart`, in the terms of the limiter. */
    method Attempt(c: Container) returns (done: bool)
      requires Limited() && clock <= c.now <= c.done
      modifies `restarts, `log, `clock, `suppressed, `attempts
      ensures Limited() && c.now <= clock <= c.done && attempts == old(attempts) + [c]
      ensures done == Restarts(old(log), c)
      ensures log == if done then Recorded(old(log), c) else old(log)
      ensures suppressed == Suppression(old(suppressed), old(log), c)
    {
      hide *;
      ghost var before := log;
      OneMore(c);
      var v, history := Allowed(c.service, c.now);
      assert restarts[c.service] == history;
      VerdictIs(before, c, v, suppressed);
      LimitedIs();
      attempts := attempts + [c];
      if v.Blocked? {
        suppressed := suppressed + {c.service};
        IsLimited();
        return false;
      }
      suppressed := suppressed - {c.service};
      if c.docker != Reported {
        IsLimited();
        return false;
      }
      GoSpaced(history, c.now, cooldown as real);
      RecordRestart(restarts, log, c.service, c.now, c.done, maxRestartsPerHour, cooldown as real);
      RecordedIs(log, c);
      clock := c.done;
      restarts := restarts[c.service := restarts[c.service] + [c.done]];
      log := Recorded(log, c);
      IsLimited();
      return true;
    }

    lemma {:induction false} VerdictIs(before: Log, c: Container, v: Verdict, marked: set<Service>)
      requires v == Judged(LogOf(before, c.service), c.now, maxRestartsPerHour, cooldown as real)
      ensures Restarts(before, c) == (v == Go && c.docker == Reported)
      ensures Suppression(marked, before, c) == if v == Go then marked - {c.service} else marked + {c.service}
    {
      hide Judged;
    }

    lemma {:induction false} LimitedIs()
      requires Limited()
      ensures LimiterOk(restarts, log, clock, maxRestartsPerHour, cooldown as real)
    {
      hide LimiterOk, Books;
    }

    lemma {:induction false} IsLimited()
      requires LimiterOk(restarts, log, clock, maxRestartsPerHour, cooldown as real)
      requires log == Books(attempts, |attempts|, maxRestartsPerHour, cooldown as real).0
      ensures Limited()
    {
      hide LimiterOk, Books;
    }

    /** What the limiter lets go ahead, read off the recorded restarts. */
    lemma {:induction false} RestartMeans(c: Container, marked: set<Service>)
      requires Limited() && clock <= c.now
      ensures var made, max := if c.service in log then log[c.service] else [], maxRestartsPerHour;
              var soon := made != [] && c.now - made[|made| - 1] <= 3600.0 && c.now - made[|made| - 1] < cooldown as real;
              var go := !soon && max > 0 && (|made| >= max ==> c.now - made[|made| - max] > 3600.0);
              && Restarts(log, c) == (go && c.docker == Reported)
              && Recorded(log, c) == log[c.service := made + [c.done]]
              && Suppression(marked, log, c) == if go then marked - {c.service} else marked + {c.service}
    {
      hide Judged, Books, History, Window;
      LimiterAt(restarts, log, clock, maxRestartsPerHour, cooldown as real, c.service);
      hide LimiterOk;
      InOrderOf(LogOf(restarts, c.service), LogOf(log, c.service), clock, maxRestartsPerHour, cooldown as real);
      var k := WindowFound(LogOf(log, c.service), c.now);
      JudgedMeans(LogOf(log, c.service), c.now, maxRestartsPerHour, cooldown as real, k);
      hide Sorted;
    }

    /** Whether a service's turn ends in a restart for its health. */
    ghost predicate HealthRestart(before: Log, seen: Sightings, c: Container) {
      c.unhealthy && Streak(SeenOf(seen, c.service)) + 1 >= unhealthyChecks && Restarts(before, c)
    }

    ghost function SeenAfter(before: Log, seen: Sightings, c: Container): Sightings {
      if !c.unhealthy then Saw(seen, c.service, Healthy)
      else
        var once := Saw(seen, c.service, Unhealthy);
        if HealthRestart(before, seen, c) then Saw(once, c.service, Restarted) else once
    }

    ghost function LogAfter(before: Log, seen: Sightings, c: Container): Log {
      if HealthRestart(before, seen, c) then Recorded(before, c) else before
    }

    /** A service's turn calls `_restart` once its streak is long enough. */
    ghost function AttemptsAfter(before: seq<Container>, seen: Sightings, c: Container): seq<Container> {
      if c.unhealthy && Streak(SeenOf(seen, c.service)) + 1 >= unhealthyChecks then before + [c] else before
    }

    /** A turn in plain terms: docker is asked exactly when this and the `unhealthyChecks` - 1
        sightings before it are unhealthy ones, and only the service's own books change. */
    lemma {:induction false} TurnMeans(before: Log, seen: Sightings, tried: seq<Container>, c: Container)
      requires unhealthyChecks > 0
      ensures var h := if c.service in seen then seen[c.service] else [];
              var due := c.unhealthy && unhealthyChecks <= |h| + 1
                         && forall i :: |h| - unhealthyChecks < i < |h| ==> h[i] == Unhealthy;
              var done := due && Restarts(before, c);
              && AttemptsAfter(tried, seen, c) == (if due then tried + [c] else tried)
              && (!done ==> LogAfter(before, seen, c) == before)
              && (done ==> LogAfter(before, seen, c) ==
                           before[c.service := (if c.service in before then before[c.service] else []) + [c.done]])
              && SeenAfter(before, seen, c) ==
                 seen[c.service := h + if !c.unhealthy then [Healthy] else if done then [Unhealthy, Restarted] else [Unhealthy]]
    {
      var h := SeenOf(seen, c.service);
      StreakMeans(h, unhealthyChecks - 1);
      hide Restarts, Streak;
      assert h + [Unhealthy] + [Restarted] == h + [Unhealthy, Restarted];
      assert Saw(Saw(seen, c.service, Unhealthy), c.service, Restarted) == seen[c.service := h + [Unhealthy, Restarted]];
    }

    /** The twin's turn in plain terms. */
    lemma {:induction false} TwinMeans(before: Log, seen: seq<Sighting>, tried: seq<Container>, inMemory: bool,
              gateway: Container, present: bool)
      requires twinChecks > 0
      ensures var due := inMemory && present && twinChecks <= |seen| + 1
                         && forall i :: |seen| - twinChecks < i < |seen| ==> seen[i] == Unhealthy;
              && TwinAttempts(tried, seen, inMemory, gateway, present) == (if due then tried + [gateway] else tried)
              && (TwinRestart(before, Streak(seen), inMemory, gateway, present) <==> due && Restarts(before, gateway))
              && TwinAfter(before, seen, inMemory, gateway, present) ==
                 seen + if !inMemory || !present then [Healthy]
                        else if due && Restarts(before, gateway) then [Unhealthy, Restarted] else [Unhealthy]
    {
      StreakMeans(seen, twinChecks - 1);
      hide Restarts, Streak;
    }

    /** One container's turn in `check`. */
    method CheckHealth(c: Container)
      requires Valid() && clock <= c.now <= c.done
      modifies this
      ensures Valid() && clock <= c.done && twinStreak == old(twinStreak) && twinSeen == old(twinSeen)
      ensures attempts == AttemptsAfter(old(attempts), old(sightings), c)
      ensures log == LogAfter(old(log), old(sightings), c) && sightings == SeenAfter(old(log), old(sightings), c)
      ensures suppressed ==
              if |attempts| > |old(attempts)| then Suppression(old(suppressed), old(log), c)
              else if !c.unhealthy && c.service != gatewayService then old(suppressed) - {c.service}
              else old(suppressed)
    {
      hide Limited, TwinOk, StreaksOk, Restarts, Streak, Saw, Suppression, Recorded, StreakOf, SeenOf;
      if c.unhealthy {
        CheckUnhealthy(c);
        return;
      }
      StreakCleared(unhealthyStreak, sightings, unhealthyChecks, c.service, Healthy);
      unhealthyStreak := unhealthyStreak - {c.service};
      sightings := Saw(sightings, c.service, Healthy);
      if c.service != gatewayService {
        suppressed := suppressed - {c.service};
      }
    }

    method CheckUnhealthy(c: Container)
      requires Valid() && clock <= c.now <= c.done && c.unhealthy
      modifies this
      ensures Valid() && clock <= c.done && twinStreak == old(twinStreak) && twinSeen == old(twinSeen)
      ensures attempts == AttemptsAfter(old(attempts), old(sightings), c)
      ensures log == LogAfter(old(log), old(sightings), c) && sightings == SeenAfter(old(log), old(sightings), c)
      ensures suppressed ==
              if |attempts| > |old(attempts)| then Suppression(old(suppressed), old(log), c) else old(suppressed)
    {
      hide Limited, TwinOk, StreaksOk, Restarts, Streak, Saw, Suppression, Recorded, SeenOf, StreakOf, LogAfter;
      hide SeenAfter, HealthRestart;
      var streak: nat := StreakOf(unhealthyStreak, c.service) + 1;
      StreakIs(c.service);
      ghost var due := AfterUnhealthy(log, sightings, c, streak);
      StreakLonger(unhealthyStreak, sightings, unhealthyChecks, c.service, streak);
      unhealthyStreak := unhealthyStreak[c.service := streak];
      sightings := Saw(sightings, c.service, Unhealthy);
      if streak >= unhealthyChecks {
        StreakCleared(unhealthyStreak, sightings, unhealthyChecks, c.service, Restarted);
        var done := Restart(c);
        if done {
          unhealthyStreak := unhealthyStreak - {c.service};
          sightings := Saw(sightings, c.service, Restarted);
        }
      }
    }

    lemma {:induction false} AfterUnhealthy(before: Log, seen: Sightings, c: Container, streak: nat) returns (due: bool)
      requires c.unhealthy && streak == Streak(SeenOf(seen, c.service)) + 1
      ensures due == (streak >= unhealthyChecks && Restarts(before, c))
      ensures LogAfter(before, seen, c) == if due then Recorded(before, c) else before
      ensures var once := Saw(seen, c.service, Unhealthy);
              SeenAfter(before, seen, c) == if due then Saw(once, c.service, Restarted) else once
    {
      hide Restarts, Streak, Saw, Recorded, SeenOf;
      due := streak >= unhealthyChecks && Restarts(before, c);
    }

    lemma {:induction false} StreakIs(service: Service)
      requires Valid()
      ensures StreakOf(unhealthyStreak, service) == Streak(SeenOf(sightings, service))
    {
      hide Limited, Streak, TwinOk;
    }

    ghost predicate TwinRestart(before: Log, streak: nat, inMemory: bool, gateway: Container, present: bool) {
      inMemory && present && streak + 1 >= twinChecks && Restarts(before, gateway)
    }

    /** What a pass sees of the twin, and whether it restarts the gateway for it. */
    ghost function TwinAfter(before: Log, seen: seq<Sighting>, inMemory: bool, gateway: Container, present: bool)
      : seq<Sighting>
    {
      if !inMemory || !present then seen + [Healthy]
      else if Streak(seen) + 1 >= twinChecks && Restarts(before, gateway) then seen + [Unhealthy] + [Restarted]
      else seen + [Unhealthy]
    }

    ghost function TwinAttempts(before: seq<Container>, seen: seq<Sighting>, inMemory: bool, gateway: Container,
                                present: bool): seq<Container>
    {
      if inMemory && present && Streak(seen) + 1 >= twinChecks then before + [gateway] else before
    }

    /** The twin's turn in `check`: the gateway is restarted for its twin iff `twinChecks` passes
        in a row saw it in memory and the limiter and docker go along. */
    method CheckTwin(inMemory: bool, gateway: Container, present: bool)
      requires Valid() && clock <= gateway.now <= gateway.done && gateway.service == gatewayService
      modifies `twinStreak, `twinSeen, `restarts, `log, `clock, `suppressed, `attempts
      ensures Valid() && clock <= gateway.done
      ensures twinSeen == TwinAfter(old(log), old(twinSeen), inMemory, gateway, present)
      ensures attempts == TwinAttempts(old(attempts), old(twinSeen), inMemory, gateway, present)
      ensures log == if TwinRestart(old(log), Streak(old(twinSeen)), inMemory, gateway, present)
                     then Recorded(old(log), gateway) else old(log)
      ensures suppressed ==
              if |attempts| > |old(attempts)| then Suppression(old(suppressed), old(log), gateway)
              else if !inMemory && present && !gateway.unhealthy then old(suppressed) - {gatewayService}
              else old(suppressed)
    {
      hide Limited, StreaksOk, Restarts, Streak, Earned;
      if inMemory && present {
        SeeMore(twinSeen, Unhealthy, twinChecks);
        twinSeen := twinSeen + [Unhealthy];
        twinStreak := twinStreak + 1;
        if twinStreak >= twinChecks {
          SeeMore(twinSeen, Restarted, twinChecks);
          var done := Restart(gateway);
          if done {
            twinStreak := 0;
            twinSeen := twinSeen + [Restarted];
          }
        }
      } else {
        SeeMore(twinSeen, Healthy, twinChecks);
        twinSeen := twinSeen + [Healthy];
        twinStreak := 0;
        if present && !gateway.unhealthy {
          suppressed := suppressed - {gatewayService};
        }
      }
    }

    /** In every history of passes the gateway is restarted for its twin only right after that
        many passes in a row saw the twin in memory, none of them counted for an earlier
        restart. */
    lemma {:induction false} TwinRestartsAreEarned(i: nat)
      requires Valid() && i < |twinSeen| && twinSeen[i] == Restarted
      ensures twinChecks <= i && forall j :: i - twinChecks <= j < i ==> twinSeen[j] == Unhealthy
    {
      hide Limited, StreaksOk, Streak;
      RestartsAreEarned(twinSeen, twinChecks, i);
    }

    /** The log, the sightings and the attempts after the first `n` containers had their turn. */
    ghost function AfterTurns(before: Log, seen: Sightings, tried: seq<Container>, containers: seq<Container>, n: nat)
      : (Log, Sightings, seq<Container>)
      requires n <= |containers|
    {
      if n == 0 then (before, seen, tried)
      else
        var (l, s, a) := AfterTurns(before, seen, tried, containers, n - 1);
        var c := containers[n - 1];
        (LogAfter(l, s, c), SeenAfter(l, s, c), AttemptsAfter(a, s, c))
    }

    /** One pass over the stack: every running service in the order listed, then the twin. */
    method Check(containers: seq<Container>, inMemory: bool, gateway: Container, present: bool)
      requires Valid() && gateway.service == gatewayService && gateway.now <= gateway.done
      requires forall i :: 0 <= i < |containers| ==> clock <= containers[i].now <= containers[i].done <= gateway.now
      requires forall i, j :: 0 <= i < j < |containers| ==> containers[i].done <= containers[j].now
      requires clock <= gateway.now
      modifies this
      ensures Valid() && clock <= gateway.done
      ensures var (l, s, a) := AfterTurns(old(log), old(sightings), old(attempts), containers, |containers|);
              && sightings == s && attempts == TwinAttempts(a, old(twinSeen), inMemory, gateway, present)
              && twinSeen == TwinAfter(l, old(twinSeen), inMemory, gateway, present)
              && log == if TwinRestart(l, Streak(old(twinSeen)), inMemory, gateway, present) then Recorded(l, gateway) else l
    {
      hide Limited, StreaksOk, TwinOk, LogAfter, SeenAfter, AttemptsAfter, TwinRestart, TwinAfter, TwinAttempts;
      for i := 0 to |containers|
        invariant Valid() && clock <= gateway.now && twinSeen == old(twinSeen)
        invariant forall j :: i <= j < |containers| ==> clock <= containers[j].now
        invariant (log, sightings, attempts) == AfterTurns(old(log), old(sightings), old(attempts), containers, i)
      {
        CheckHealth(containers[i]);
      }
      CheckTwin(inMemory, gateway, present);
    }

    /** A pass is about the services it lists: the others keep their log and their sightings. */
    lemma {:induction false} TurnsTouchOnlyListed(before: Log, seen: Sightings, tried: seq<Container>,
              containers: seq<Container>, n: nat, s: Service)
      requires n <= |containers| && forall i :: 0 <= i < n ==> containers[i].service != s
      ensures LogOf(AfterTurns(before, seen, tried, containers, n).0, s) == LogOf(before, s)
      ensures SeenOf(AfterTurns(before, seen, tried, containers, n).1, s) == SeenOf(seen, s)
    {
      hide HealthRestart, AttemptsAfter;
      if n == 0 {
      } else {
        TurnsTouchOnlyListed(before, seen, tried, containers, n - 1, s);
      }
    }
  }

  lemma {:induction false} LimiterAt(restarts: Log, log: Log, now: real, max: nat, cooldown: real, service: Service)
    requires LimiterOk(restarts, log, now, max, cooldown)
    ensures History(LogOf(restarts, service), LogOf(log, service), now, max, cooldown)
  {
  }

  lemma {:induction false} AllowedMeans(restarts: Log, log: Log, now: real, max: nat, cooldown: real,
            service: Service, k: nat)
    requires LimiterOk(restarts, log, now, max, cooldown) && Window(LogOf(log, service), now, k)
    ensures service !in log ==> Judged(LogOf(log, service), now, max, cooldown) == if max > 0 then Go else Blocked(HOURLY_CAP)
    ensures service in log ==>
              var made, v := log[service], Judged(LogOf(log, service), now, max, cooldown);
              var soon := made != [] && now - made[|made| - 1] <= 3600.0 && now - made[|made| - 1] < cooldown;
              && (v == Blocked(COOLDOWN) <==> soon)
              && (v == Go <==> !soon && max > 0 && (|made| >= max ==> now - made[|made| - max] > 3600.0))
  {
    LimiterAt(restarts, log, now, max, cooldown, service);
    hide Window, Spaced, SuffixOf, LimiterOk;
    JudgedMeans(LogOf(log, service), now, max, cooldown, k);
    hide Judged, Sorted;
  }

  lemma {:induction false} SamePrune(restarts: Log, log: Log, now: real, max: nat, cooldown: real, service: Service,
            history: seq<real>)
    requires LimiterOk(restarts, log, now, max, cooldown) && History(history, LogOf(log, service), now, max, cooldown)
    ensures LimiterOk(restarts[service := history], log, now, max, cooldown)
  {
    hide History;
  }

  lemma {:induction false} RecordRestart(restarts: Log, log: Log, service: Service, now: real, done: real, max: nat,
            cooldown: real)
    requires LimiterOk(restarts, log, now, max, cooldown) && now <= done && service in restarts
    requires restarts[service] != [] ==> now - restarts[service][|restarts[service]| - 1] >= cooldown
    requires |restarts[service]| < max
    ensures LimiterOk(restarts[service := restarts[service] + [done]], log[service := LogOf(log, service) + [done]], done, max, cooldown)
  {
    assert History(LogOf(restarts, service), LogOf(log, service), now, max, cooldown);
    hide LimiterOk, History;
    Appended(restarts[service], LogOf(log, service), now, done, max, cooldown);
    LimiterLater(restarts, log, now, done, max, cooldown);
    LimiterUpdate(restarts, log, done, max, cooldown, service, restarts[service] + [done], LogOf(log, service) + [done]);
  }

}
