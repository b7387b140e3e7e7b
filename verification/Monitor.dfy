/**
  The guest scheduler: a cyclic scan for the next runnable guest, a re-measurement
  before each guest's first dispatch, and restart back-off.
  */
module Monitor {
  import opened Handles

  datatype GuestState = Stopped | Ready | Running | WaitingHsm | Faulted | Restarting

  datatype TaskState = TaskRunnable | TaskRunning | TaskBlocked | TaskFaulted

  /** A guest's HSM tasklet: its state and a wake that arrived while it was active. */
  datatype Tasklet = Tasklet(state: TaskState, wake: bool)

  /** initial is the state a relaunch puts the guest in. */
  datatype Guest = Guest(state: GuestState, delay: nat, tasklet: Option<Tasklet>, initial: GuestState)

  datatype Rep = Ns | Hsm

  // ---------------------------------------------------------------- who can run

  /** The tasklet after a latched wake has been delivered to it. */
  function Promoted(t: Tasklet): Tasklet {
    if t.state == TaskBlocked && t.wake then Tasklet(TaskRunnable, false) else t
  }

  function Promote(g: Guest): Guest {
    if g.tasklet.Some? then g.(tasklet := Some(Promoted(g.tasklet.value))) else g
  }

  predicate TaskletRunnable(g: Guest) {
    g.tasklet.Some? && Promoted(g.tasklet.value).state == TaskRunnable
  }

  predicate Eligible(g: Guest) {
    g.delay == 0 && (g.state in {Ready, Running} || (g.state == WaitingHsm && TaskletRunnable(g)))
  }

  function RepOf(g: Guest): Rep {
    if g.state == WaitingHsm then Hsm else Ns
  }

  // ---------------------------------------------------------------- the cyclic order

  /** Guest number start + k in the cyclic order of n guests. */
  function At(start: nat, k: nat, n: nat): nat
    requires start < n && k < n
  {
    if start + k < n then start + k else start + k - n
  }

  /** How far guest g is from start in the cyclic order. */
  function Offset(start: nat, g: nat, n: nat): nat
    requires start < n && g < n
  {
    if g >= start then g - start else g + n - start
  }

  function Next(g: nat, n: nat): nat
    requires g < n
  {
    if g + 1 < n then g + 1 else 0
  }

  lemma ModWraps(x: nat, n: nat)
    requires 0 < n && x < 2 * n
    ensures x % n == if x < n then x else x - n
  {
    if x >= n {
      assert x == 1 * n + (x - n);
      assert x / n == 1;
    }
  }

  /** The scan has found no runnable guest among the first k from start. */
  ghost predicate NoneBefore(gs: seq<Guest>, start: nat, k: nat)
    requires start < |gs| && k <= |gs|
  {
    forall j :: 0 <= j < k ==> !Eligible(gs[At(start, j, |gs|)])
  }

  /** The first runnable guest from start in cyclic order, or |gs|. */
  function FirstFrom(gs: seq<Guest>, start: nat, k: nat): (r: nat)
    requires start < |gs| && k <= |gs| && NoneBefore(gs, start, k)
    ensures r <= |gs|
    ensures r < |gs| ==> Eligible(gs[r]) && NoneBefore(gs, start, Offset(start, r, |gs|))
    ensures r == |gs| ==> forall g :: 0 <= g < |gs| ==> !Eligible(gs[g])
    decreases |gs| - k
  {
    if k == |gs| then
      AllSeen(gs, start);
      |gs|
    else if Eligible(gs[At(start, k, |gs|)]) then At(start, k, |gs|)
    else FirstFrom(gs, start, k + 1)
  }

  lemma AllSeen(gs: seq<Guest>, start: nat)
    requires start < |gs| && NoneBefore(gs, start, |gs|)
    ensures forall g :: 0 <= g < |gs| ==> !Eligible(gs[g])
  {
    forall g | 0 <= g < |gs| ensures !Eligible(gs[g]) {
      assert At(start, Offset(start, g, |gs|), |gs|) == g;
    }
  }

  // ---------------------------------------------------------------- one scheduling decision

  datatype Outcome = Dispatched(guest: nat, rep: Rep, gs: seq<Guest>, pending: set<nat>)
                   | Idle(gs: seq<Guest>, pending: set<nat>)
                   | Halted(gs: seq<Guest>, pending: set<nat>)

  /** No guest will ever run again without outside help. */
  predicate AllTerminal(gs: seq<Guest>) {
    forall g :: 0 <= g < |gs| ==> gs[g].state in {Faulted, Stopped}
  }

  /** The decision as a function: pending guests are re-measured (ok) before their first dispatch. */
  function Decide(gs: seq<Guest>, current: nat, pending: set<nat>, ok: seq<bool>): Outcome
    requires current < |gs| && |ok| == |gs|
    decreases |pending|, 1
  {
    var g := FirstFrom(gs, Next(current, |gs|), 0);
    if g == |gs| then (if AllTerminal(gs) then Halted(gs, pending) else Idle(gs, pending))
    else if RepOf(gs[g]) == Hsm then Dispatched(g, Hsm, gs[g := Promote(gs[g])], pending)
    else Dispatch(gs, current, pending, ok, g)
  }

  /** The dispatch of guest g: its first one measures it again, and a failure moves on to the next guest. */
  function Dispatch(gs: seq<Guest>, current: nat, pending: set<nat>, ok: seq<bool>, g: nat): Outcome
    requires current < |gs| && |ok| == |gs| && g < |gs|
    decreases |pending|, 0
  {
    if g in pending && !ok[g] then
      assert |pending - {g}| < |pending| by { assert pending == (pending - {g}) + {g}; }
      Decide(gs[g := gs[g].(state := Faulted)], current, pending - {g}, ok)
    else Dispatched(g, Ns, gs[g := gs[g].(state := Running)], pending - {g})
  }

  /** g can be dispatched: it is runnable, and its image passes if it is still to be measured. */
  predicate Launchable(gs: seq<Guest>, pending: set<nat>, ok: seq<bool>, g: nat)
    requires |ok| == |gs|
  {
    g < |gs| && Eligible(gs[g]) && (RepOf(gs[g]) == Ns && g in pending ==> ok[g])
  }

  /** The decision picks the launchable guest that comes first after the current one. */
  lemma {:induction false} DecideIsFirst(gs: seq<Guest>, current: nat, pending: set<nat>, ok: seq<bool>, g: nat)
    requires current < |gs| && |ok| == |gs| && Launchable(gs, pending, ok, g)
    ensures var r := Decide(gs, current, pending, ok);
            && r.Dispatched? && r.guest < |gs| && Launchable(gs, pending, ok, r.guest)
            && Offset(Next(current, |gs|), r.guest, |gs|) <= Offset(Next(current, |gs|), g, |gs|)
    decreases |pending|
  {
    var start := Next(current, |gs|);
    var c := FirstFrom(gs, start, 0);
    assert At(start, Offset(start, g, |gs|), |gs|) == g;
    assert At(start, Offset(start, c, |gs|), |gs|) == c;
    if RepOf(gs[c]) == Ns && c in pending && !ok[c] {
      assert pending == (pending - {c}) + {c};
      DecideIsFirst(gs[c := gs[c].(state := Faulted)], current, pending - {c}, ok, g);
    }
  }

  /** Only guests that failed their measurement change besides the dispatched one, and nobody else is disturbed. */
  lemma {:induction false} DecideChanges(gs: seq<Guest>, current: nat, pending: set<nat>, ok: seq<bool>, g: nat)
    requires current < |gs| && |ok| == |gs| && g < |gs|
    ensures var r := Decide(gs, current, pending, ok);
            && |r.gs| == |gs| && r.pending <= pending
            && (r.gs[g] != gs[g] && !(r.Dispatched? && r.guest == g) ==>
                  && r.gs[g] == gs[g].(state := Faulted)
                  && g in pending && g !in r.pending && !ok[g] && Eligible(gs[g]) && RepOf(gs[g]) == Ns)
    decreases |pending|
  {
    var start := Next(current, |gs|);
    var c := FirstFrom(gs, start, 0);
    if c < |gs| && RepOf(gs[c]) == Ns && c in pending && !ok[c] {
      assert pending == (pending - {c}) + {c};
      DecideChanges(gs[c := gs[c].(state := Faulted)], current, pending - {c}, ok, g);
    }
  }

  /** The scheduler goes without a guest exactly if none is launchable, and halts exactly if that is final. */
  lemma {:induction false} DecideStops(gs: seq<Guest>, current: nat, pending: set<nat>, ok: seq<bool>)
    requires current < |gs| && |ok| == |gs|
    ensures var r := Decide(gs, current, pending, ok);
            && (r.Dispatched? <==> exists g :: 0 <= g < |gs| && Launchable(gs, pending, ok, g))
            && (!r.Dispatched? ==> forall g :: 0 <= g < |r.gs| ==> !Eligible(r.gs[g]))
            && (r.Halted? <==> AllTerminal(r.gs))
    decreases |pending|
  {
    var c := FirstFrom(gs, Next(current, |gs|), 0);
    if c < |gs| {
      if RepOf(gs[c]) == Ns && c in pending && !ok[c] {
        assert pending == (pending - {c}) + {c};
        var gs1 := gs[c := gs[c].(state := Faulted)];
        DecideStops(gs1, current, pending - {c}, ok);
        forall g | 0 <= g < |gs| ensures Launchable(gs1, pending - {c}, ok, g) == Launchable(gs, pending, ok, g) {
        }
      } else {
        assert Launchable(gs, pending, ok, c);
        assert Decide(gs, current, pending, ok).gs[c].state in {WaitingHsm, Running};
      }
    }
  }

  /** The boot dispatch: a scan from the first guest, halting if there is none to run. */
  function Boot(gs: seq<Guest>, current: nat, pending: set<nat>, ok: seq<bool>): Outcome
    requires current < |gs| && |ok| == |gs|
  {
    var g := FirstFrom(gs, 0, 0);
    if g == |gs| then Halted(gs, pending)
    else Dispatch(gs[g := if RepOf(gs[g]) == Hsm then Promote(gs[g]) else gs[g]], current, pending, ok, g)
  }

  /** No guest runs unmeasured: whoever is dispatched to its Non-secure side has passed, now or before. */
  lemma {:induction false} DispatchedWasMeasured(gs: seq<Guest>, current: nat, pending: set<nat>, ok: seq<bool>, g: nat)
    requires current < |gs| && |ok| == |gs| && g < |gs|
    ensures var r := Dispatch(gs, current, pending, ok, g);
            r.Dispatched? && r.rep == Ns ==> r.guest < |gs| && r.guest !in r.pending && (r.guest in pending ==> ok[r.guest])
    ensures var r := Dispatch(gs, current, pending, ok, g);
            r.Dispatched? ==> r.guest < |gs| && (r.guest == g || Eligible(gs[r.guest]))
    decreases |pending|
  {
    if g in pending && !ok[g] {
      assert pending == (pending - {g}) + {g};
      var gs1 := gs[g := gs[g].(state := Faulted)];
      var c := FirstFrom(gs1, Next(current, |gs|), 0);
      if c < |gs| && RepOf(gs1[c]) == Ns {
        DispatchedWasMeasured(gs1, current, pending - {g}, ok, c);
      }
    }
  }

  // ---------------------------------------------------------------- every guest that stays runnable gets its turn

  /** One decision of a run: the guests and measurements it saw, and where it started. */
  datatype Decision = Decision(gs: seq<Guest>, current: nat, pending: set<nat>, ok: seq<bool>)

  /** Consecutive decisions over n guests: each starts where the last one dispatched; between them anything may change. */
  ghost predicate Chain(ds: seq<Decision>, n: nat) {
    && (forall k :: 0 <= k < |ds| ==> |ds[k].gs| == n == |ds[k].ok| && ds[k].current < n)
    && (forall k :: 0 <= k < |ds| - 1 ==> Picked(ds[k]).Dispatched? && ds[k + 1].current == Picked(ds[k]).guest)
  }

  function Picked(d: Decision): Outcome
    requires d.current < |d.gs| && |d.ok| == |d.gs|
  {
    Decide(d.gs, d.current, d.pending, d.ok)
  }

  /** The distance of a guest that is passed over strictly falls. */
  lemma DistanceFalls(d: Decision, g: nat)
    requires d.current < |d.gs| && |d.ok| == |d.gs| && Launchable(d.gs, d.pending, d.ok, g)
    ensures Picked(d).Dispatched? && Picked(d).guest < |d.gs|
    ensures Picked(d).guest != g ==>
              Offset(Next(Picked(d).guest, |d.gs|), g, |d.gs|) < Offset(Next(d.current, |d.gs|), g, |d.gs|)
  {
    DecideIsFirst(d.gs, d.current, d.pending, d.ok, g);
    hide Decide;
  }

  lemma {:induction false} DispatchedWithin(ds: seq<Decision>, n: nat, g: nat)
    requires 0 < n && g < n && ds != [] && Chain(ds, n)
    requires forall k :: 0 <= k < |ds| ==> Launchable(ds[k].gs, ds[k].pending, ds[k].ok, g)
    requires |ds| > Offset(Next(ds[0].current, n), g, n)
    ensures exists k :: 0 <= k <= Offset(Next(ds[0].current, n), g, n) && Picked(ds[k]).Dispatched? && Picked(ds[k]).guest == g
    decreases |ds|
  {
    hide Decide;
    DistanceFalls(ds[0], g);
    if Picked(ds[0]).guest != g {
      var rest := ds[1..];
      DispatchedWithin(rest, n, g);
      var k :| 0 <= k <= Offset(Next(rest[0].current, n), g, n) && Picked(rest[k]).Dispatched? && Picked(rest[k]).guest == g;
      assert ds[k + 1] == rest[k];
    }
  }

  /** Among any n consecutive dispatches, a guest that stays launchable is dispatched. */
  lemma RoundRobin(ds: seq<Decision>, n: nat, g: nat)
    requires 0 < n && g < n && |ds| == n && Chain(ds, n)
    requires forall k :: 0 <= k < |ds| ==> Launchable(ds[k].gs, ds[k].pending, ds[k].ok, g)
    ensures exists k :: 0 <= k < n && Picked(ds[k]).Dispatched? && Picked(ds[k]).guest == g
  {
    DispatchedWithin(ds, n, g);
  }

  // ---------------------------------------------------------------- restart back-off

  /** One tick for one guest: its delay runs down, and at zero a restarting guest is measured and relaunched. */
  function Tick(g: Guest, ok: bool): Guest {
    var d := if g.delay > 0 then g.delay - 1 else 0;
    if d == 0 && g.state == Restarting then g.(delay := 0, state := if ok then g.initial else Faulted)
    else g.(delay := d)
  }

  function Ticks(g: Guest, oks: seq<bool>): Guest {
    if oks == [] then g else Tick(Ticks(g, oks[..|oks| - 1]), oks[|oks| - 1])
  }

  /** A restarting guest waits out exactly its delay, and what the measurement then says decides its fate for good. */
  lemma {:induction false} BackoffIsExact(g: Guest, oks: seq<bool>)
    requires g.state == Restarting && g.initial != Restarting
    ensures var r := Ticks(g, oks);
            var wait := if g.delay == 0 then 1 else g.delay;
            if |oks| < wait then r == g.(delay := if g.delay == 0 then 0 else g.delay - |oks|)
            else r.delay == 0 && r.state == (if oks[wait - 1] then g.initial else Faulted) && r.initial == g.initial
  {
    if oks != [] {
      BackoffIsExact(g, oks[..|oks| - 1]);
    }
  }

  // ---------------------------------------------------------------- the monitor as stored

  function FirstGuests(n: nat): (r: set<nat>)
    ensures forall g :: g in r <==> 0 <= g < n
  {
    if n == 0 then {} else FirstGuests(n - 1) + {n - 1}
  }

  class Scheduler {
    const guests: array<Guest>
    var current: nat
    var rep: Rep
    var pending: set<nat>

    ghost predicate Valid()
      reads this
    {
      0 < guests.Length <= 32 && current < guests.Length
    }

    constructor (initial: seq<Guest>)
      requires 0 < |initial| <= 32
      ensures Valid() && guests[..] == initial && current == 0 && (forall g :: g in pending <==> 0 <= g < |initial|)
      ensures fresh(guests)
    {
      guests := new Guest[|initial|](i requires 0 <= i < |initial| => initial[i]);
      current, rep := 0, Ns;
      pending := FirstGuests(|initial|);
    }

    /** Scans from start; a latched wake of the tasklet it settles on is delivered. */
    method FindNextRunnable(start: nat) returns (g: nat, r: Rep)
      requires Valid() && start < guests.Length
      modifies guests
      ensures g == FirstFrom(old(guests[..]), start, 0)
      ensures g < guests.Length ==> r == RepOf(old(guests[g]))
      ensures guests[..] == if g < guests.Length && r == Hsm then old(guests[..])[g := Promote(old(guests[g]))] else old(guests[..])
    {
      ghost var gs := guests[..];
      var n := guests.Length;
      var attempts := 0;
      r := Ns;
      while attempts < n
        invariant 0 <= attempts <= n && guests[..] == gs && NoneBefore(gs, start, attempts)
        invariant FirstFrom(gs, start, 0) == FirstFrom(gs, start, attempts)
      {
        var c := (start + attempts) % n;
        ModWraps(start + attempts, n);
        assert c == At(start, attempts, n) && guests[c] == gs[c];
        if guests[c].delay == 0 {
          if guests[c].state == WaitingHsm {
            if guests[c].tasklet.Some? {
              var t := guests[c].tasklet.value;
              if Promoted(t).state == TaskRunnable {
                guests[c] := Promote(guests[c]);
                return c, Hsm;
              }
            }
          } else if guests[c].state == Ready || guests[c].state == Running {
            return c, Ns;
          }
        }
        attempts := attempts + 1;
      }
      g := n;
    }

    /** What a decision leaves behind. */
    ghost predicate Follows(o: Outcome, old': nat)
      reads this, guests
    {
      && guests[..] == o.gs && pending == o.pending
      && (o.Dispatched? ==> current == o.guest && rep == o.rep)
      && (!o.Dispatched? ==> current == old')
    }

    method CheckTerminal() returns (all: bool)
      ensures all <==> AllTerminal(guests[..])
    {
      for i := 0 to guests.Length
        invariant forall k :: 0 <= k < i ==> guests[k].state in {Faulted, Stopped}
      {
        if guests[i].state != Faulted && guests[i].state != Stopped {
          assert guests[..][i].state !in {Faulted, Stopped};
          return false;
        }
      }
      all := true;
    }

    /** Picks and dispatches the next guest; the recursion through failed measurements ends because each clears a bit. */
    method ScheduleNext(ok: seq<bool>) returns (dispatched: bool, halted: bool)
      requires Valid() && |ok| == guests.Length
      modifies this, guests
      ensures var o := Decide(old(guests[..]), old(current), old(pending), ok);
              Valid() && dispatched == o.Dispatched? && halted == o.Halted? && Follows(o, old(current))
      decreases |pending|, 1
    {
      var n := guests.Length;
      ModWraps(current + 1, n);
      var start := (current + 1) % n;
      assert start == Next(current, n);
      var g, r := FindNextRunnable(start);
      if g >= n {
        halted := CheckTerminal();
        return false, halted;
      }
      if r == Hsm {
        current := g;
        rep := Hsm;
        return true, false;
      }
      dispatched, halted := DispatchGuest(g, ok);
    }

    method DispatchGuest(g: nat, ok: seq<bool>) returns (dispatched: bool, halted: bool)
      requires Valid() && |ok| == guests.Length && g < guests.Length
      modifies this, guests
      ensures var o := Dispatch(old(guests[..]), old(current), old(pending), ok, g);
              Valid() && dispatched == o.Dispatched? && halted == o.Halted? && Follows(o, old(current))
      decreases |pending|, 0
    {
      ghost var gs := guests[..];
      if g in pending {
        assert pending == (pending - {g}) + {g};
        pending := pending - {g};
        if !ok[g] {
          guests[g] := guests[g].(state := Faulted);
          assert guests[..] == gs[g := gs[g].(state := Faulted)];
          dispatched, halted := ScheduleNext(ok);
          return;
        }
      }
      guests[g] := guests[g].(state := Running);
      current := g;
      rep := Ns;
      return true, false;
    }

    /** The first dispatch after boot scans from guest 0. */
    method Start(ok: seq<bool>) returns (dispatched: bool, halted: bool)
      requires Valid() && |ok| == guests.Length
      modifies this, guests
      ensures var o := Boot(old(guests[..]), old(current), old(pending), ok);
              Valid() && dispatched == o.Dispatched? && halted == o.Halted? && Follows(o, old(current))
    {
      ghost var gs := guests[..];
      var g, r := FindNextRunnable(0);
      if g >= guests.Length {
        return false, true;
      }
      assert guests[..] == gs[g := if RepOf(gs[g]) == Hsm then Promote(gs[g]) else gs[g]];
      dispatched, halted := DispatchGuest(g, ok);
    }

    method TickBackoff(ok: seq<bool>)
      requires Valid() && |ok| == guests.Length
      modifies guests
      ensures forall i :: 0 <= i < guests.Length ==> guests[i] == Tick(old(guests[i]), ok[i])
    {
      var i := 0;
      while i < guests.Length
        invariant 0 <= i <= guests.Length
        invariant forall k :: 0 <= k < i ==> guests[k] == Tick(old(guests[k]), ok[k])
        invariant forall k :: i <= k < guests.Length ==> guests[k] == old(guests[k])
      {
        if guests[i].delay > 0 {
          guests[i] := guests[i].(delay := guests[i].delay - 1);
        }
        if guests[i].delay == 0 && guests[i].state == Restarting {
          guests[i] := guests[i].(state := if ok[i] then guests[i].initial else Faulted);
        }
        i := i + 1;
      }
    }
  }
}
