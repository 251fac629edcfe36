/** The outbox budgets: the rolling hour over the persistent markers, the request window, the log window. */
module OutboxBudgets {
  import opened Basics
  import opened Outbox

  // ---------------------------------------------------------------- the rolling hour

  /** Reservations for `peer` dated in the half-open hour from `t`. */
  function InHour(markers: map<Id, Marker>, peer: string, t: int): set<Id> {
    set i | i in markers && markers[i].Marker? && markers[i].peer == peer && t <= markers[i].at < t + RATE_WINDOW_MS
  }

  ghost predicate HourBound(markers: map<Id, Marker>, peer: string, cap: int) {
    forall t: int :: |InHour(markers, peer, t)| <= cap
  }

  /** One reservation after a passed rate check. `rateNow` and `markNow` are its two readings of the clock. */
  datatype Reservation = Reservation(id: Id, peer: string, rateNow: int, markNow: int)

  predicate Admitted(markers: map<Id, Marker>, r: Reservation, cap: int) {
    r.id !in markers && |Recent(markers, r.peer, r.rateNow)| < cap
  }

  function Reserve(markers: map<Id, Marker>, r: Reservation): map<Id, Marker> {
    markers[r.id := Marker(r.peer, r.markNow)]
  }

  /** The markers after a serving process, or one after another, took these requests in turn; a request that
      is not admitted reserves nothing. */
  function ReserveAll(markers: map<Id, Marker>, rs: seq<Reservation>, cap: int): map<Id, Marker>
    decreases |rs|
  {
    if rs == [] then markers
    else ReserveAll(if Admitted(markers, rs[0], cap) then Reserve(markers, rs[0]) else markers, rs[1..], cap)
  }

  lemma SubsetCounts(a: set<Id>, b: set<Id>)
    requires a <= b
    ensures |a| <= |b|
  {
    if a != {} {
      var x :| x in a;
      SubsetCounts(a - {x}, b - {x});
    }
  }

  /** A reservation whose clock does not step back between its two readings keeps the bound for every hour. */
  lemma ReservationKeepsBound(markers: map<Id, Marker>, r: Reservation, peer: string, cap: int)
    requires HourBound(markers, peer, cap) && Admitted(markers, r, cap) && r.rateNow <= r.markNow
    ensures HourBound(Reserve(markers, r), peer, cap)
  {
    var after := Reserve(markers, r);
    forall t: int ensures |InHour(after, peer, t)| <= cap {
      if r.peer == peer && t <= r.markNow < t + RATE_WINDOW_MS {
        assert InHour(after, peer, t) == InHour(markers, peer, t) + {r.id};
        assert InHour(markers, peer, t) <= Recent(markers, peer, r.rateNow);
        SubsetCounts(InHour(markers, peer, t), Recent(markers, peer, r.rateNow));
      } else {
        assert InHour(after, peer, t) == InHour(markers, peer, t);
      }
    }
  }

  /** The rolling-hour bound under any clock: whatever the clock does between requests and across restarts,
      every half-open hour holds at most `cap` reservations for a peer. */
  lemma {:induction false} RollingHourBound(markers: map<Id, Marker>, rs: seq<Reservation>, peer: string, cap: int)
    requires HourBound(markers, peer, cap)
    requires forall i :: 0 <= i < |rs| ==> rs[i].rateNow <= rs[i].markNow
    ensures HourBound(ReserveAll(markers, rs, cap), peer, cap)
    decreases |rs|
  {
    if rs != [] {
      if Admitted(markers, rs[0], cap) {
        ReservationKeepsBound(markers, rs[0], peer, cap);
        RollingHourBound(Reserve(markers, rs[0]), rs[1..], peer, cap);
      } else {
        RollingHourBound(markers, rs[1..], peer, cap);
      }
    }
  }

  /** The sender's own request keeps the bound when no policy in force gives the peer a greater cap. */
  lemma RequestKeepsHourBound(f: Facts, admitted: bool, policy: Option<(map<string, int>, int)>, rateNow: int, markNow: int,
      w: World, peer: string, cap: int)
    requires Passes(f, admitted, policy, rateNow, false, w) && rateNow <= markNow
    requires HourBound(w.markers, peer, cap) && CapOf(policy, peer) <= cap
    ensures var c := f.item.value.content; HourBound(Reserved(w, c.id, c.to, markNow).markers, peer, cap)
  {
    var c := f.item.value.content;
    var r := Reservation(c.id, c.to, rateNow, markNow);
    var after := Reserve(w.markers, r);
    assert Reserved(w, c.id, c.to, markNow).markers == after;
    if c.to == peer {
      assert Admitted(w.markers, r, cap);
      ReservationKeepsBound(w.markers, r, peer, cap);
    } else {
      forall t: int ensures |InHour(after, peer, t)| <= cap {
        assert InHour(after, peer, t) == InHour(w.markers, peer, t);
      }
      assert HourBound(after, peer, cap);
    }
  }

  lemma NoMarkersYet(peer: string, cap: nat)
    ensures HourBound(map[], peer, cap)
  {
    forall t: int ensures |InHour(map[], peer, t)| <= cap {
      assert InHour(map[], peer, t) == {};
    }
  }

  /** So from an outbox without markers, as every outbox starts, no hour ever holds more than the cap. */
  lemma RollingHourFromStart(rs: seq<Reservation>, peer: string, cap: nat)
    requires forall i :: 0 <= i < |rs| ==> rs[i].rateNow <= rs[i].markNow
    ensures HourBound(ReserveAll(map[], rs, cap), peer, cap)
  {
    NoMarkersYet(peer, cap);
    RollingHourBound(map[], rs, peer, cap);
  }

  function FirstIds(n: nat): (s: set<Id>)
    ensures |s| == n && forall i :: i in s <==> 0 <= i < n
  {
    if n == 0 then {} else FirstIds(n - 1) + {n - 1}
  }

  /** `cap` reservations dated at one moment. */
  function Burst(peer: string, cap: nat, at: int): map<Id, Marker> {
    map i | i in FirstIds(cap) :: Marker(peer, at)
  }

  lemma BurstCounts(peer: string, cap: nat, at: int, now: int)
    ensures HourBound(Burst(peer, cap, at), peer, cap)
    ensures now - at >= RATE_WINDOW_MS ==> Recent(Burst(peer, cap, at), peer, now) == {}
  {
    forall t: int ensures |InHour(Burst(peer, cap, at), peer, t)| <= cap {
      SubsetCounts(InHour(Burst(peer, cap, at), peer, t), FirstIds(cap));
    }
  }

  /** The condition is exact. For every two readings, an admitted reservation keeps the bound from every
      state that meets it if and only if the second reading is not before the first. */
  lemma BoundNeedsSteadyClock(rateNow: int, markNow: int, peer: string, cap: int)
    requires cap >= 1
    ensures rateNow <= markNow <==> forall markers: map<Id, Marker>, id: Id ::
      HourBound(markers, peer, cap) && Admitted(markers, Reservation(id, peer, rateNow, markNow), cap) ==>
      HourBound(Reserve(markers, Reservation(id, peer, rateNow, markNow)), peer, cap)
  {
    if rateNow <= markNow {
      forall markers: map<Id, Marker>, id: Id
        | HourBound(markers, peer, cap) && Admitted(markers, Reservation(id, peer, rateNow, markNow), cap)
        ensures HourBound(Reserve(markers, Reservation(id, peer, rateNow, markNow)), peer, cap)
      {
        ReservationKeepsBound(markers, Reservation(id, peer, rateNow, markNow), peer, cap);
      }
    } else {
      StepBackBreaksBound(rateNow, markNow, peer, cap);
    }
  }

  lemma StepBackBreaksBound(rateNow: int, markNow: int, peer: string, cap: int)
    requires cap >= 1 && markNow < rateNow
    ensures exists markers: map<Id, Marker>, id: Id ::
      && HourBound(markers, peer, cap) && Admitted(markers, Reservation(id, peer, rateNow, markNow), cap)
      && !HourBound(Reserve(markers, Reservation(id, peer, rateNow, markNow)), peer, cap)
  {
    var at := if markNow < rateNow - RATE_WINDOW_MS then markNow else rateNow - RATE_WINDOW_MS;
    var markers := Burst(peer, cap, at);
    BurstCounts(peer, cap, at, rateNow);
    var r := Reservation(cap, peer, rateNow, markNow);
    assert Admitted(markers, r, cap);
    assert InHour(Reserve(markers, r), peer, at) == FirstIds(cap + 1);
    assert |InHour(Reserve(markers, r), peer, at)| == cap + 1;
    assert !HourBound(Reserve(markers, r), peer, cap);
  }

  // ---------------------------------------------------------------- the request window

  const REQUEST_BUDGET := 60
  const REQUEST_WINDOW_MS := 60_000

  datatype Window = Window(start: int, count: nat)

  function Rolled(w: Window, t: int): Window {
    if t < w.start || t - w.start >= REQUEST_WINDOW_MS then Window(t, 0) else w
  }

  predicate Admits(w: Window, t: int) {
    Rolled(w, t).count < REQUEST_BUDGET
  }

  function AfterRequest(w: Window, t: int): Window {
    if Admits(w, t) then Window(Rolled(w, t).start, Rolled(w, t).count + 1) else Rolled(w, t)
  }

  class RequestWindow {
    var start: int
    var count: nat

    function Value(): Window
      reads this
    {
      Window(start, count)
    }

    constructor ()
      ensures Value() == Window(0, 0)
    {
      start, count := 0, 0;
    }

    method AdmitRequest(t: int) returns (ok: bool)
      modifies this
      ensures ok == Admits(old(Value()), t) && Value() == AfterRequest(old(Value()), t)
    {
      if t < start || t - start >= REQUEST_WINDOW_MS {
        start := t;
        count := 0;
      }
      if count >= REQUEST_BUDGET {
        return false;
      }
      count := count + 1;
      ok := true;
    }
  }

  /** How many of the requests at `ts` are admitted within the half-open minute from `a`. */
  function AdmittedIn(w: Window, ts: seq<int>, a: int): nat
    decreases |ts|
  {
    if ts == [] then 0
    else (if Admits(w, ts[0]) && a <= ts[0] < a + REQUEST_WINDOW_MS then 1 else 0) + AdmittedIn(AfterRequest(w, ts[0]), ts[1..], a)
  }

  predicate Steady(last: int, ts: seq<int>) {
    (ts != [] ==> last <= ts[0]) && forall i :: 0 <= i && i + 1 < |ts| ==> ts[i] <= ts[i + 1]
  }

  /** How many more can be admitted in the minute from `a`, when the last request was at `last`. */
  function Room(w: Window, last: int, a: int): int {
    if last >= a + REQUEST_WINDOW_MS then 0
    else if w.start >= a then REQUEST_BUDGET - w.count
    else if last >= a then 2 * REQUEST_BUDGET - w.count
    else if w.count >= 1 then 2 * REQUEST_BUDGET - 1
    else 2 * REQUEST_BUDGET
  }

  lemma {:induction false} AdmittedWithinRoom(w: Window, last: int, ts: seq<int>, a: int)
    requires Steady(last, ts) && w.start <= last && w.count <= REQUEST_BUDGET
    ensures AdmittedIn(w, ts, a) <= Room(w, last, a)
    decreases |ts|
  {
    if ts != [] {
      assert Steady(ts[0], ts[1..]);
      AdmittedWithinRoom(AfterRequest(w, ts[0]), ts[0], ts[1..], a);
    }
  }

  /** With a clock that does not step back, any half-open minute admits at most two budgets of requests; one
      less for any clock past the first minute of its epoch. */
  lemma TwoBudgetsPerMinute(ts: seq<int>, a: int)
    requires Steady(0, ts)
    ensures AdmittedIn(Window(0, 0), ts, a) <= 2 * REQUEST_BUDGET
    ensures ts != [] && ts[0] >= REQUEST_WINDOW_MS ==> AdmittedIn(Window(0, 0), ts, a) <= 2 * REQUEST_BUDGET - 1
  {
    AdmittedWithinRoom(Window(0, 0), 0, ts, a);
    if ts != [] && ts[0] >= REQUEST_WINDOW_MS {
      assert Steady(ts[0], ts[1..]);
      AdmittedWithinRoom(Window(ts[0], 1), ts[0], ts[1..], a);
    }
  }

  function Times(n: nat, t: int): seq<int> {
    seq(n, i => t)
  }

  lemma {:induction false} BurstIsAdmitted(w: Window, n: nat, t: int, rest: seq<int>, a: int)
    requires w.start <= t < w.start + REQUEST_WINDOW_MS && w.count + n <= REQUEST_BUDGET && a <= t < a + REQUEST_WINDOW_MS
    ensures AdmittedIn(w, Times(n, t) + rest, a) == n + AdmittedIn(Window(w.start, w.count + n), rest, a)
    decreases n
  {
    if n == 0 {
      assert Times(n, t) + rest == rest;
    } else {
      assert (Times(n, t) + rest)[1..] == Times(n - 1, t) + rest;
      BurstIsAdmitted(AfterRequest(w, t), n - 1, t, rest, a);
    }
  }

  /** That bound is reached: the end of one window and the start of the next fall in one minute. */
  lemma TwoBudgetsAreReached(first: int, late: int)
    requires REQUEST_WINDOW_MS <= first < late < first + REQUEST_WINDOW_MS
    ensures exists ts: seq<int> :: Steady(0, ts) && AdmittedIn(Window(0, 0), ts, late) == 2 * REQUEST_BUDGET - 1
  {
    var t := first + REQUEST_WINDOW_MS;
    var end := Times(REQUEST_BUDGET, t) + [];
    var ts := [first] + (Times(REQUEST_BUDGET - 1, late) + end);
    assert ts[1..] == Times(REQUEST_BUDGET - 1, late) + end;
    BurstIsAdmitted(Window(first, 1), REQUEST_BUDGET - 1, late, end, late);
    assert end[1..] == Times(REQUEST_BUDGET - 1, t) + [];
    BurstIsAdmitted(Window(t, 1), REQUEST_BUDGET - 1, t, [], late);
    assert Steady(0, ts);
  }

  // ---------------------------------------------------------------- the log window

  const LOG_WINDOW_MS := 60_000
  const LOG_BUDGET := 10

  datatype Line = Event(name: string) | LogSuppressed(count: nat)

  datatype Budget = Budget(start: int, used: nat, suppressed: nat, lines: seq<Line>)

  function Reopened(b: Budget, t: int): Budget {
    if t < b.start || t - b.start >= LOG_WINDOW_MS then
      Budget(t, 0, 0, b.lines + if b.suppressed > 0 then [LogSuppressed(b.suppressed)] else [])
    else b
  }

  function Logged(b: Budget, name: string, t: int): Budget {
    var r := Reopened(b, t);
    if r.used < LOG_BUDGET then r.(used := r.used + 1, lines := r.lines + [Event(name)])
    else r.(suppressed := r.suppressed + 1)
  }

  class BudgetedLog {
    var start: int
    var used: nat
    var suppressed: nat
    var lines: seq<Line>

    function Value(): Budget
      reads this
    {
      Budget(start, used, suppressed, lines)
    }

    constructor ()
      ensures Value() == Budget(0, 0, 0, [])
    {
      start, used, suppressed, lines := 0, 0, 0, [];
    }

    method Log(name: string, t: int)
      modifies this
      ensures Value() == Logged(old(Value()), name, t)
    {
      if t < start || t - start >= LOG_WINDOW_MS {
        if suppressed > 0 {
          lines := lines + [LogSuppressed(suppressed)];
        }
        start := t;
        used := 0;
        suppressed := 0;
      }
      if used < LOG_BUDGET {
        used := used + 1;
        lines := lines + [Event(name)];
      } else {
        suppressed := suppressed + 1;
      }
    }
  }

  /** The events passed in, with the clock reading of each. */
  function LogAll(b: Budget, calls: seq<(string, int)>): Budget
    decreases |calls|
  {
    if calls == [] then b else LogAll(Logged(b, calls[0].0, calls[0].1), calls[1..])
  }

  /** Events written, and events reported as suppressed. */
  function Accounted(lines: seq<Line>): nat {
    if lines == [] then 0
    else Accounted(lines[..|lines| - 1]) + match lines[|lines| - 1] case Event(_) => 1 case LogSuppressed(n) => n
  }

  lemma AccountedMore(lines: seq<Line>, l: Line)
    ensures Accounted(lines + [l]) == Accounted(lines) + match l case Event(_) => 1 case LogSuppressed(n) => n
  {
    assert (lines + [l])[..|lines|] == lines;
  }

  lemma LoggedAccounts(b: Budget, name: string, t: int)
    ensures Accounted(Logged(b, name, t).lines) + Logged(b, name, t).suppressed == Accounted(b.lines) + b.suppressed + 1
  {
    var r := Reopened(b, t);
    AccountedMore(b.lines, LogSuppressed(b.suppressed));
    assert b.lines + [] == b.lines;
    AccountedMore(r.lines, Event(name));
  }

  /** For any clock: events passed in are the events written, plus those reported as suppressed, plus those
      still to be reported. */
  lemma {:induction false} NoEventIsUncounted(b: Budget, calls: seq<(string, int)>)
    ensures var r := LogAll(b, calls);
      Accounted(r.lines) + r.suppressed == Accounted(b.lines) + b.suppressed + |calls|
    decreases |calls|
  {
    if calls != [] {
      LoggedAccounts(b, calls[0].0, calls[0].1);
      NoEventIsUncounted(Logged(b, calls[0].0, calls[0].1), calls[1..]);
    }
  }
}
