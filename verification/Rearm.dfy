/**
  The camera detector (wired/detect.rs) composed with the retry budget and the
  consumer loop of the app (src-tauri/src/lib.rs): poll ticks and offloads
  interleave in any order, for any number of cameras.
 */
module Rearm {
  import opened Wrappers

  datatype Ip = V4(a: Byte, b: Byte, c: Byte, d: Byte)

  const MAX_WIRED_REARMS: nat := 2

  // A hard run error or any failed file calls for a retry.
  predicate RearmNeeded(aborted: bool, failed: nat) {
    aborted || failed > 0
  }

  /* ----- the budget ----- */

  datatype Budget = Budget(streak: map<Ip, nat>, rearmedLast: set<Ip>)

  function NoteEvent(b: Budget, ip: Ip): Budget {
    if ip in b.rearmedLast then b else b.(streak := b.streak[ip := 0])
  }

  function ShouldRearm(b: Budget, ip: Ip, retry: bool): (Budget, bool) {
    var streak := if ip in b.streak then b.streak[ip] else 0;
    if !retry then (Budget(b.streak[ip := 0], b.rearmedLast - {ip}), false)
    else if streak < MAX_WIRED_REARMS then (Budget(b.streak[ip := streak + 1], b.rearmedLast + {ip}), true)
    else (Budget(b.streak[ip := streak], b.rearmedLast - {ip}), false)
  }

  class RearmBudget {
    var streak: map<Ip, nat>
    var rearmedLast: set<Ip>

    constructor ()
      ensures Value() == Budget(map[], {})
    {
      streak, rearmedLast := map[], {};
    }

    function Value(): Budget
      reads this
    {
      Budget(streak, rearmedLast)
    }

    method Note(ip: Ip)
      modifies this
      ensures Value() == NoteEvent(old(Value()), ip)
    {
      if ip !in rearmedLast {
        streak := streak[ip := 0];
      }
    }

    method Decide(ip: Ip, retry: bool) returns (rearm: bool)
      modifies this
      ensures (Value(), rearm) == ShouldRearm(old(Value()), ip, retry)
    {
      if !retry {
        streak := streak[ip := 0];
        rearmedLast := rearmedLast - {ip};
        return false;
      }
      if ip !in streak {
        streak := streak[ip := 0];
      }
      if streak[ip] < MAX_WIRED_REARMS {
        streak := streak[ip := streak[ip] + 1];
        rearmedLast := rearmedLast + {ip};
        rearm := true;
      } else {
        rearmedLast := rearmedLast - {ip};
        rearm := false;
      }
      assert streak == old(streak)[ip := streak[ip]];
    }
  }

  /* ----- the detector ----- */

  // One unpaused tick: forget the re-armed cameras, probe, fire on the edge. A
  // camera whose info request fails is not marked present, so it fires later.
  function Fires(present: set<Ip>, rearm: set<Ip>, answers: set<Ip>, informs: set<Ip>): set<Ip> {
    (answers - (present - rearm)) * informs
  }

  function Presence(present: set<Ip>, rearm: set<Ip>, answers: set<Ip>, informs: set<Ip>): set<Ip> {
    (answers * (present - rearm)) + (answers * informs)
  }

  predicate NoDuplicates(s: seq<Ip>) {
    forall i, j :: 0 <= i < j < |s| ==> s[i] != s[j]
  }

  class Detector {
    var present: set<Ip>
    var rearm: set<Ip>

    constructor ()
      ensures present == {} && rearm == {}
    {
      present, rearm := {}, {};
    }

    method Rearm(ip: Ip)
      modifies this`rearm
      ensures rearm == old(rearm) + {ip}
    {
      rearm := rearm + {ip};
    }

    method Tick(candidates: seq<Ip>, answers: set<Ip>, informs: set<Ip>) returns (fired: seq<Ip>)
      requires forall ip :: ip in answers ==> ip in candidates
      modifies this
      ensures rearm == {} && present == Presence(old(present), old(rearm), answers, informs)
      ensures NoDuplicates(fired) && forall ip :: ip in fired <==> ip in Fires(old(present), old(rearm), answers, informs)
    {
      present := present - rearm;
      rearm := {};
      ghost var before := present;
      var confirmed: set<Ip> := {};
      for i := 0 to |candidates|
        invariant present == before && rearm == {}
        invariant forall ip :: ip in confirmed <==> ip in answers && ip in candidates[..i]
      {
        assert candidates[..i + 1] == candidates[..i] + [candidates[i]];
        if candidates[i] in answers {
          confirmed := confirmed + {candidates[i]};
        }
      }
      assert candidates[..|candidates|] == candidates;
      assert forall ip :: ip in confirmed <==> ip in answers;
      var edge: set<Ip> := confirmed - present;
      fired := [];
      while edge != {}
        invariant present == before && rearm == {}
        invariant edge <= answers - before
        invariant confirmed == answers - ((answers - before - edge) - informs)
        invariant NoDuplicates(fired) && forall ip :: ip in fired <==> ip in (answers - before - edge) * informs
        decreases edge
      {
        var ip :| ip in edge;
        assert ip !in fired;
        edge := edge - {ip};
        if ip in informs {
          fired := fired + [ip];
        } else {
          confirmed := confirmed - {ip};
        }
      }
      present := confirmed;
    }
  }

  /* ----- the composition ----- */

  // A detection on its way to the consumer. `edge`: the camera was absent and no
  // re-arm was pending when the tick found it; otherwise a re-arm brought it back.
  datatype Found = Found(ip: Ip, edge: bool)

  // `retries(ip, k)`: does the k-th run for `ip` need a retry (`rearm_needed`)?
  datatype System = System(
    present: set<Ip>, rearm: set<Ip>, queue: seq<Found>, budget: Budget,
    runs: map<Ip, nat>,      // offloads so far
    since: map<Ip, nat>)     // offloads since the budget was last granted afresh

  datatype Step =
    | Tick(answers: set<Ip>, informs: set<Ip>, fired: seq<Ip>)
    | Handle

  const BOOT := System({}, {}, [], Budget(map[], {}), map[], map[])

  predicate Allowed(s: System, e: Step) {
    match e
    case Tick(answers, informs, fired) =>
      NoDuplicates(fired) && (set ip | ip in fired) == Fires(s.present, s.rearm, answers, informs)
    case Handle => s.queue != []
  }

  function Count(m: map<Ip, nat>, ip: Ip): nat {
    if ip in m then m[ip] else 0
  }

  predicate IsEdge(s: System, ip: Ip) {
    ip !in s.present && ip !in s.rearm
  }

  function Marked(s: System, fired: seq<Ip>): (r: seq<Found>)
    ensures |r| == |fired|
  {
    seq(|fired|, i requires 0 <= i < |fired| => Found(fired[i], IsEdge(s, fired[i])))
  }

  // Does handling the next detection ask for another one?
  predicate AsksAgain(s: System, retries: (Ip, nat) -> bool)
    requires s.queue != []
  {
    var ip := s.queue[0].ip;
    ShouldRearm(NoteEvent(s.budget, ip), ip, retries(ip, Count(s.runs, ip) + 1)).1
  }

  function Advance(s: System, e: Step, retries: (Ip, nat) -> bool): System
    requires Allowed(s, e)
  {
    match e
    case Tick(answers, informs, fired) =>
      s.(present := Presence(s.present, s.rearm, answers, informs), rearm := {}, queue := s.queue + Marked(s, fired))
    case Handle =>
      var ip := s.queue[0].ip;
      var noted := NoteEvent(s.budget, ip);
      var replugged := ip !in s.budget.rearmedLast;
      var k := Count(s.runs, ip) + 1;
      var (b, again) := ShouldRearm(noted, ip, retries(ip, k));
      System(s.present, if again then s.rearm + {ip} else s.rearm, s.queue[1..], b,
             s.runs[ip := k], s.since[ip := if replugged then 1 else Count(s.since, ip) + 1])
  }

  predicate LegalRun(s: System, es: seq<Step>, retries: (Ip, nat) -> bool)
    decreases |es|
  {
    es == [] || (Allowed(s, es[0]) && LegalRun(Advance(s, es[0], retries), es[1..], retries))
  }

  function After(s: System, es: seq<Step>, retries: (Ip, nat) -> bool): System
    requires LegalRun(s, es, retries)
    decreases |es|
  {
    if es == [] then s else After(Advance(s, es[0], retries), es[1..], retries)
  }

  /* ----- the queued detections of one camera ----- */

  function EdgesOf(queue: seq<Found>, ip: Ip): seq<bool> {
    if queue == [] then []
    else (if queue[0].ip == ip then [queue[0].edge] else []) + EdgesOf(queue[1..], ip)
  }

  lemma {:induction false} EdgesAppend(a: seq<Found>, b: seq<Found>, ip: Ip)
    ensures EdgesOf(a + b, ip) == EdgesOf(a, ip) + EdgesOf(b, ip)
  {
    if a == [] {
      assert a + b == b;
    } else {
      assert (a + b)[1..] == a[1..] + b;
      EdgesAppend(a[1..], b, ip);
    }
  }

  lemma {:induction false} EdgesOfFired(s: System, fired: seq<Ip>, ip: Ip)
    requires NoDuplicates(fired)
    ensures EdgesOf(Marked(s, fired), ip) == if ip in fired then [IsEdge(s, ip)] else []
  {
    if fired != [] {
      assert Marked(s, fired)[1..] == Marked(s, fired[1..]);
      EdgesOfFired(s, fired[1..], ip);
    }
  }

  // What a step does to the detections queued for `ip`.
  lemma EdgesStep(s: System, e: Step, ip: Ip, retries: (Ip, nat) -> bool)
    requires Allowed(s, e)
    ensures e.Tick? ==>
              EdgesOf(Advance(s, e, retries).queue, ip)
              == EdgesOf(s.queue, ip)
                 + if ip in Fires(s.present, s.rearm, e.answers, e.informs) then [IsEdge(s, ip)] else []
    ensures e.Handle? ==>
              EdgesOf(s.queue, ip)
              == (if s.queue[0].ip == ip then [s.queue[0].edge] else []) + EdgesOf(Advance(s, e, retries).queue, ip)
  {
    if e.Tick? {
      EdgesAppend(s.queue, Marked(s, e.fired), ip);
      EdgesOfFired(s, e.fired, ip);
      assert ip in e.fired <==> ip in (set x | x in e.fired);
    }
  }

  lemma {:induction false} QueuedIff(queue: seq<Found>, ip: Ip)
    ensures EdgesOf(queue, ip) != [] <==> exists i :: 0 <= i < |queue| && queue[i].ip == ip
  {
    if queue != [] {
      QueuedIff(queue[1..], ip);
      if i :| 0 <= i < |queue| && queue[i].ip == ip {
        assert i > 0 ==> queue[1..][i - 1].ip == ip;
      }
    }
  }

  /* ----- a camera that stays plugged in ----- */

  // min(index of the first clean run, 1 + MAX_WIRED_REARMS)
  function RunLimit(ip: Ip, retries: (Ip, nat) -> bool): nat {
    if !retries(ip, 1) then 1 else if !retries(ip, 2) then 2 else 1 + MAX_WIRED_REARMS
  }

  predicate AlwaysThere(ip: Ip, es: seq<Step>) {
    forall i :: 0 <= i < |es| && es[i].Tick? ==> ip in es[i].answers && ip in es[i].informs
  }

  predicate AllFailed(ip: Ip, k: nat, retries: (Ip, nat) -> bool) {
    forall i :: 1 <= i <= k ==> retries(ip, i)
  }

  datatype Phase = Unseen | Waiting | Rearmed | Settled

  predicate InPhase(s: System, ip: Ip, retries: (Ip, nat) -> bool, ph: Phase) {
    var r := Count(s.runs, ip);
    var queued := |EdgesOf(s.queue, ip)|;
    match ph
    case Unseen => ip !in s.present && ip !in s.rearm && queued == 0 && r == 0 && ip !in s.budget.rearmedLast
    case Waiting =>
      && ip in s.present && ip !in s.rearm && queued == 1 && r <= MAX_WIRED_REARMS && AllFailed(ip, r, retries)
      && (ip in s.budget.rearmedLast <==> r >= 1) && (r >= 1 ==> Count(s.budget.streak, ip) == r)
    case Rearmed =>
      && ip in s.present && ip in s.rearm && queued == 0 && 1 <= r <= MAX_WIRED_REARMS && AllFailed(ip, r, retries)
      && ip in s.budget.rearmedLast && Count(s.budget.streak, ip) == r
    case Settled => ip in s.present && ip !in s.rearm && queued == 0 && r == RunLimit(ip, retries)
  }

  lemma TickPhase(s: System, e: Step, ip: Ip, retries: (Ip, nat) -> bool, ph: Phase)
    requires Allowed(s, e) && e.Tick? && ip in e.answers && ip in e.informs && InPhase(s, ip, retries, ph)
    ensures InPhase(Advance(s, e, retries), ip, retries, if ph.Unseen? || ph.Rearmed? then Waiting else ph)
  {
    EdgesStep(s, e, ip, retries);
  }

  lemma HandlePhase(s: System, ip: Ip, retries: (Ip, nat) -> bool, ph: Phase) returns (next: Phase)
    requires Allowed(s, Handle) && InPhase(s, ip, retries, ph)
    ensures InPhase(Advance(s, Handle, retries), ip, retries, next)
    ensures ph.Unseen? || ph.Rearmed? || ph.Settled? ==> next == ph
  {
    EdgesStep(s, Handle, ip, retries);
    if s.queue[0].ip != ip {
      next := ph;
    } else {
      var r := Count(s.runs, ip) + 1;
      next := if retries(ip, r) && r <= MAX_WIRED_REARMS then Rearmed else Settled;
      if next.Settled? {
        assert r == RunLimit(ip, retries) by {
          assert r > 1 ==> retries(ip, 1);
          assert r > 2 ==> retries(ip, 2);
        }
      }
    }
  }

  lemma {:induction false} PhaseAlong(s: System, es: seq<Step>, ip: Ip, retries: (Ip, nat) -> bool, ph: Phase)
    returns (last: Phase)
    requires LegalRun(s, es, retries) && AlwaysThere(ip, es) && InPhase(s, ip, retries, ph)
    ensures InPhase(After(s, es, retries), ip, retries, last)
    decreases |es|
  {
    last := ph;
    if es != [] {
      if es[0].Tick? {
        TickPhase(s, es[0], ip, retries, ph);
        last := if ph.Unseen? || ph.Rearmed? then Waiting else ph;
      } else {
        last := HandlePhase(s, ip, retries, ph);
      }
      assert AlwaysThere(ip, es[1..]);
      last := PhaseAlong(Advance(s, es[0], retries), es[1..], ip, retries, last);
    }
  }

  // Whatever the schedule and whatever other cameras do: never more offloads
  // than the limit, and exactly that many once nothing is under way for it.
  lemma PluggedInCameraIsBounded(es: seq<Step>, ip: Ip, retries: (Ip, nat) -> bool)
    requires LegalRun(BOOT, es, retries) && AlwaysThere(ip, es)
    ensures var s := After(BOOT, es, retries);
            && Count(s.runs, ip) <= RunLimit(ip, retries)
            && (ip in s.present && ip !in s.rearm && (forall i :: 0 <= i < |s.queue| ==> s.queue[i].ip != ip) ==>
                  Count(s.runs, ip) == RunLimit(ip, retries))
  {
    var ph := PhaseAlong(BOOT, es, ip, retries, Unseen);
    var s := After(BOOT, es, retries);
    var r := Count(s.runs, ip);
    assert InPhase(s, ip, retries, ph);
    QueuedIff(s.queue, ip);
    if ph.Waiting? || ph.Rearmed? {
      assert r >= 1 ==> retries(ip, 1);
      assert r >= 2 ==> retries(ip, 2);
    }
  }

  // ... and it does get there: as long as it is not settled, a tick or the next
  // event handled for it moves it on.
  lemma OneMoreTickFires(s: System, e: Step, ip: Ip, retries: (Ip, nat) -> bool, ph: Phase)
    requires Allowed(s, e) && e.Tick? && ip in e.answers && ip in e.informs && InPhase(s, ip, retries, ph)
    ensures (exists i :: 0 <= i < |Advance(s, e, retries).queue| && Advance(s, e, retries).queue[i].ip == ip)
            <==> !ph.Settled?
  {
    TickPhase(s, e, ip, retries, ph);
    QueuedIff(Advance(s, e, retries).queue, ip);
  }

  /* ----- any camera ----- */

  predicate WithinBudget(s: System, ip: Ip) {
    && Count(s.since, ip) <= 1 + MAX_WIRED_REARMS
    && (ip in s.budget.rearmedLast ==> 1 <= Count(s.budget.streak, ip) == Count(s.since, ip) <= MAX_WIRED_REARMS)
  }

  ghost predicate BudgetInv(s: System) {
    forall ip: Ip :: WithinBudget(s, ip)
  }

  lemma BudgetKept(s: System, e: Step, retries: (Ip, nat) -> bool)
    requires BudgetInv(s) && Allowed(s, e)
    ensures BudgetInv(Advance(s, e, retries))
  {
    forall ip: Ip ensures WithinBudget(Advance(s, e, retries), ip) {
      assert WithinBudget(s, ip);
    }
  }

  // However a camera flaps, between two fresh grants it is offloaded at most
  // 1 + MAX_WIRED_REARMS times.
  lemma {:induction false} GrantsAreBounded(s: System, es: seq<Step>, retries: (Ip, nat) -> bool)
    requires BudgetInv(s) && LegalRun(s, es, retries)
    ensures BudgetInv(After(s, es, retries))
    decreases |es|
  {
    if es != [] {
      BudgetKept(s, es[0], retries);
      GrantsAreBounded(Advance(s, es[0], retries), es[1..], retries);
    }
  }

  /* ----- who gets a fresh budget ----- */

  // Handling the next detection starts its camera on an unused budget.
  predicate GrantsFresh(s: System)
    requires s.queue != []
  {
    Count(NoteEvent(s.budget, s.queue[0].ip).streak, s.queue[0].ip) == 0
  }

  // A re-arm runs out of step with the detection it was to cause in two ways: a
  // tick takes it up while the camera does not answer ...
  predicate Wasted(s: System, e: Step, ip: Ip) {
    e.Tick? && EdgesOf(s.queue, ip) == [] && ip in s.rearm && ip !in Fires(s.present, s.rearm, e.answers, e.informs)
  }

  // ... or it is granted while another detection of the camera already waits.
  predicate Overtaken(s: System, e: Step, ip: Ip, retries: (Ip, nat) -> bool) {
    e.Handle? && s.queue != [] && s.queue[0].ip == ip && |EdgesOf(s.queue, ip)| >= 2 && AsksAgain(s, retries)
  }

  predicate Slips(s: System, e: Step, ip: Ip, retries: (Ip, nat) -> bool) {
    Wasted(s, e, ip) || Overtaken(s, e, ip, retries)
  }

  // The budget expects a re-armed detection of `ip` exactly if one is due.
  predicate InStep(s: System, ip: Ip) {
    var q := EdgesOf(s.queue, ip);
    if q == [] then ip in s.budget.rearmedLast <==> ip in s.rearm
    else
      && (q[0] <==> ip !in s.budget.rearmedLast)
      && ip !in s.rearm
      && forall i :: 1 <= i < |q| ==> q[i]
  }

  // The budget expects a re-armed detection but a plain edge will come.
  predicate OutOfStep(s: System, ip: Ip) {
    var q := EdgesOf(s.queue, ip);
    ip in s.budget.rearmedLast && if q == [] then ip !in s.rearm else q[0]
  }

  lemma TickInStep(s: System, e: Step, ip: Ip, retries: (Ip, nat) -> bool)
    requires Allowed(s, e) && e.Tick? && InStep(s, ip)
    ensures !Slips(s, e, ip, retries) ==> InStep(Advance(s, e, retries), ip)
    ensures Slips(s, e, ip, retries) ==> OutOfStep(Advance(s, e, retries), ip)
  {
    EdgesStep(s, e, ip, retries);
    var q, q' := EdgesOf(s.queue, ip), EdgesOf(Advance(s, e, retries).queue, ip);
    if q != [] && q' != q {
      assert q' == q + [IsEdge(s, ip)];
    }
  }

  lemma StepInStep(s: System, e: Step, ip: Ip, retries: (Ip, nat) -> bool)
    requires Allowed(s, e) && InStep(s, ip)
    ensures !Slips(s, e, ip, retries) ==> InStep(Advance(s, e, retries), ip)
    ensures Slips(s, e, ip, retries) ==> OutOfStep(Advance(s, e, retries), ip)
  {
    if e.Tick? {
      TickInStep(s, e, ip, retries);
      return;
    }
    EdgesStep(s, e, ip, retries);
    var q, q' := EdgesOf(s.queue, ip), EdgesOf(Advance(s, e, retries).queue, ip);
    if s.queue[0].ip == ip {
      assert q' == q[1..];
      assert forall i :: 0 <= i < |q'| ==> q'[i] == q[i + 1];
    } else {
      assert q' == q;
    }
  }

  lemma StepOutOfStep(s: System, e: Step, ip: Ip, retries: (Ip, nat) -> bool)
    requires Allowed(s, e) && OutOfStep(s, ip) && !(e.Handle? && s.queue[0].ip == ip)
    ensures OutOfStep(Advance(s, e, retries), ip)
  {
    EdgesStep(s, e, ip, retries);
  }

  // While budget and detector are in step, a fresh budget goes exactly to a
  // plain edge; once out of step the next detection is an edge and gets none.
  lemma FreshGrantIff(s: System)
    requires s.queue != [] && WithinBudget(s, s.queue[0].ip)
    ensures InStep(s, s.queue[0].ip) ==> (GrantsFresh(s) <==> s.queue[0].edge)
    ensures OutOfStep(s, s.queue[0].ip) ==> s.queue[0].edge && !GrantsFresh(s)
  {
  }

  // Over a history: every detection of `ip` gets a fresh budget exactly if it is
  // a plain edge.
  predicate FreshOnEdges(s: System, es: seq<Step>, ip: Ip, retries: (Ip, nat) -> bool)
    requires LegalRun(s, es, retries)
    decreases |es|
  {
    es == []
    || ((es[0].Handle? && s.queue[0].ip == ip ==> (GrantsFresh(s) <==> s.queue[0].edge))
        && FreshOnEdges(Advance(s, es[0], retries), es[1..], ip, retries))
  }

  predicate Handled(s: System, es: seq<Step>, ip: Ip, retries: (Ip, nat) -> bool)
    requires LegalRun(s, es, retries)
    decreases |es|
  {
    es != [] && ((es[0].Handle? && s.queue[0].ip == ip) || Handled(Advance(s, es[0], retries), es[1..], ip, retries))
  }

  // No slip is followed by a detection of `ip`.
  predicate NoLiveSlip(s: System, es: seq<Step>, ip: Ip, retries: (Ip, nat) -> bool)
    requires LegalRun(s, es, retries)
    decreases |es|
  {
    es == []
    || ((Slips(s, es[0], ip, retries) ==> !Handled(Advance(s, es[0], retries), es[1..], ip, retries))
        && NoLiveSlip(Advance(s, es[0], retries), es[1..], ip, retries))
  }

  lemma {:induction false} NothingHandled(s: System, es: seq<Step>, ip: Ip, retries: (Ip, nat) -> bool)
    requires LegalRun(s, es, retries) && !Handled(s, es, ip, retries)
    ensures FreshOnEdges(s, es, ip, retries) && NoLiveSlip(s, es, ip, retries)
    decreases |es|
  {
    if es != [] {
      NothingHandled(Advance(s, es[0], retries), es[1..], ip, retries);
    }
  }

  lemma {:induction false} OutOfStepShows(s: System, es: seq<Step>, ip: Ip, retries: (Ip, nat) -> bool)
    requires BudgetInv(s) && LegalRun(s, es, retries) && OutOfStep(s, ip) && Handled(s, es, ip, retries)
    ensures !FreshOnEdges(s, es, ip, retries)
    decreases |es|
  {
    assert WithinBudget(s, ip);
    if es[0].Handle? && s.queue[0].ip == ip {
      FreshGrantIff(s);
    } else {
      StepOutOfStep(s, es[0], ip, retries);
      BudgetKept(s, es[0], retries);
      OutOfStepShows(Advance(s, es[0], retries), es[1..], ip, retries);
    }
  }

  lemma {:induction false} FreshFrom(s: System, es: seq<Step>, ip: Ip, retries: (Ip, nat) -> bool)
    requires BudgetInv(s) && LegalRun(s, es, retries) && InStep(s, ip)
    ensures FreshOnEdges(s, es, ip, retries) <==> NoLiveSlip(s, es, ip, retries)
    decreases |es|
  {
    if es != [] {
      var t := Advance(s, es[0], retries);
      assert WithinBudget(s, ip);
      if es[0].Handle? && s.queue[0].ip == ip {
        FreshGrantIff(s);
      }
      StepInStep(s, es[0], ip, retries);
      BudgetKept(s, es[0], retries);
      if !Slips(s, es[0], ip, retries) {
        FreshFrom(t, es[1..], ip, retries);
      } else if Handled(t, es[1..], ip, retries) {
        OutOfStepShows(t, es[1..], ip, retries);
      } else {
        NothingHandled(t, es[1..], ip, retries);
      }
    }
  }

  // Fresh budgets coincide with plain edges over a whole history if and only if
  // no re-arm is wasted or overtaken before a later detection of the camera.
  lemma FreshExactlyOnEdges(es: seq<Step>, ip: Ip, retries: (Ip, nat) -> bool)
    requires LegalRun(BOOT, es, retries)
    ensures FreshOnEdges(BOOT, es, ip, retries) <==> NoLiveSlip(BOOT, es, ip, retries)
  {
    FreshFrom(BOOT, es, ip, retries);
  }

  // A camera that keeps answering never slips.
  lemma {:induction false} PluggedInNeverSlips(s: System, es: seq<Step>, ip: Ip, retries: (Ip, nat) -> bool, ph: Phase)
    requires LegalRun(s, es, retries) && AlwaysThere(ip, es) && InPhase(s, ip, retries, ph)
    ensures NoLiveSlip(s, es, ip, retries)
    decreases |es|
  {
    if es != [] {
      var next := ph;
      if es[0].Tick? {
        TickPhase(s, es[0], ip, retries, ph);
        next := if ph.Unseen? || ph.Rearmed? then Waiting else ph;
      } else {
        next := HandlePhase(s, ip, retries, ph);
      }
      assert AlwaysThere(ip, es[1..]);
      PluggedInNeverSlips(Advance(s, es[0], retries), es[1..], ip, retries, next);
    }
  }

  lemma ThenAdvance(s: System, e: Step, rest: seq<Step>, retries: (Ip, nat) -> bool)
    requires Allowed(s, e) && LegalRun(Advance(s, e, retries), rest, retries)
    ensures LegalRun(s, [e] + rest, retries)
    ensures After(s, [e] + rest, retries) == After(Advance(s, e, retries), rest, retries)
  {
    assert ([e] + rest)[1..] == rest;
  }

  // Slip 1: the camera is found, its run fails, and it is unplugged when the
  // re-arm is due. Plugging it in again is an edge, but gets no fresh budget.
  lemma ReplugWithoutGrant(ip: Ip, retries: (Ip, nat) -> bool)
    requires retries(ip, 1)
    ensures var there, gone := Tick({ip}, {ip}, [ip]), Tick({}, {}, []);
            var es := [there, Handle, gone, there];
            && LegalRun(BOOT, es, retries)
            && var s := After(BOOT, es, retries);
            s.queue == [Found(ip, true)] && !GrantsFresh(s)
  {
    var there, gone := Tick({ip}, {ip}, [ip]), Tick({}, {}, []);
    var b := FoundAndRun(ip, retries);
    var c := Unplugged(b, ip, retries);
    Replugged(c, ip, retries);
    Joined(BOOT, [there, Handle], [gone], retries);
    Joined(BOOT, [there, Handle] + [gone], [there], retries);
    assert [there, Handle] + [gone] + [there] == [there, Handle, gone, there];
  }

  lemma Unplugged(s: System, ip: Ip, retries: (Ip, nat) -> bool) returns (t: System)
    ensures LegalRun(s, [Tick({}, {}, [])], retries) && t == After(s, [Tick({}, {}, [])], retries)
    ensures t == s.(present := {}, rearm := {})
  {
    var gone := Tick({}, {}, []);
    assert (set x: Ip | x in []) == {};
    t := Advance(s, gone, retries);
    assert t.queue == s.queue;
    ThenAdvance(s, gone, [], retries);
    assert [gone] + [] == [gone];
  }

  lemma Replugged(s: System, ip: Ip, retries: (Ip, nat) -> bool)
    requires s.present == s.rearm == {} && s.queue == []
    requires ip in s.budget.rearmedLast && Count(s.budget.streak, ip) > 0
    ensures var es := [Tick({ip}, {ip}, [ip])];
            LegalRun(s, es, retries)
            && After(s, es, retries).queue == [Found(ip, true)] && !GrantsFresh(After(s, es, retries))
  {
    var there := Tick({ip}, {ip}, [ip]);
    assert (set x | x in [ip]) == {ip};
    assert Advance(s, there, retries).queue == [Found(ip, true)];
    ThenAdvance(s, there, [], retries);
    assert [there] + [] == [there];
  }

  // A camera is found and its run fails, with the budget to try again.
  lemma FoundAndRun(ip: Ip, retries: (Ip, nat) -> bool) returns (s: System)
    requires retries(ip, 1)
    ensures var es := [Tick({ip}, {ip}, [ip]), Handle];
            LegalRun(BOOT, es, retries) && s == After(BOOT, es, retries)
    ensures s.rearm == s.budget.rearmedLast == {ip} && s.queue == [] && Count(s.budget.streak, ip) == 1
  {
    var there := Tick({ip}, {ip}, [ip]);
    assert (set x | x in [ip]) == {ip};
    var a := Advance(BOOT, there, retries);
    assert a.queue == [Found(ip, true)];
    s := Advance(a, Handle, retries);
    ThenAdvance(a, Handle, [], retries);
    ThenAdvance(BOOT, there, [Handle], retries);
    assert [Handle] + [] == [Handle] && [there] + [Handle] == [there, Handle];
  }

  // Slip 2: two edges are queued, the first run fails and re-arms, the second is
  // clean. The detection that the re-arm then causes gets a fresh budget.
  lemma GrantWithoutReplug(ip: Ip, retries: (Ip, nat) -> bool)
    requires retries(ip, 1) && !retries(ip, 2)
    ensures var there, gone := Tick({ip}, {ip}, [ip]), Tick({}, {}, []);
            var es := [there, gone, there, Handle, Handle, there];
            && LegalRun(BOOT, es, retries)
            && var s := After(BOOT, es, retries);
            s.queue == [Found(ip, false)] && GrantsFresh(s)
  {
    var there, gone := Tick({ip}, {ip}, [ip]), Tick({}, {}, []);
    var two := FoundTwice(ip, retries);
    assert (set x | x in [ip]) == {ip};
    var d := Advance(two, Handle, retries);
    assert d.queue == [Found(ip, true)] && ip in d.rearm && ip in d.present;
    var e := Advance(d, Handle, retries);
    assert e.queue == [] && ip in e.rearm && ip in e.present && ip !in e.budget.rearmedLast;
    ThenAdvance(e, there, [], retries);
    ThenAdvance(d, Handle, [there], retries);
    ThenAdvance(two, Handle, [Handle] + [there], retries);
    assert [there] + [] == [there] && [Handle] + ([Handle] + [there]) == [Handle, Handle, there];
    Joined(BOOT, [there, gone, there], [Handle, Handle, there], retries);
    assert [there, gone, there] + [Handle, Handle, there] == [there, gone, there, Handle, Handle, there];
  }

  lemma FoundTwice(ip: Ip, retries: (Ip, nat) -> bool) returns (s: System)
    ensures var there, gone := Tick({ip}, {ip}, [ip]), Tick({}, {}, []);
            LegalRun(BOOT, [there, gone, there], retries) && s == After(BOOT, [there, gone, there], retries)
    ensures s == BOOT.(present := {ip}, queue := [Found(ip, true), Found(ip, true)])
  {
    var there, gone := Tick({ip}, {ip}, [ip]), Tick({}, {}, []);
    assert (set x | x in [ip]) == {ip} && (set x: Ip | x in []) == {};
    var a := Advance(BOOT, there, retries);
    var b := Advance(a, gone, retries);
    s := Advance(b, there, retries);
    ThenAdvance(b, there, [], retries);
    ThenAdvance(a, gone, [there], retries);
    ThenAdvance(BOOT, there, [gone] + [there], retries);
    assert [there] + [] == [there] && [there] + ([gone] + [there]) == [there, gone, there];
  }

  lemma {:induction false} Joined(s: System, es: seq<Step>, more: seq<Step>, retries: (Ip, nat) -> bool)
    requires LegalRun(s, es, retries) && LegalRun(After(s, es, retries), more, retries)
    ensures LegalRun(s, es + more, retries) && After(s, es + more, retries) == After(After(s, es, retries), more, retries)
    decreases |es|
  {
    if es == [] {
      assert es + more == more;
    } else {
      assert (es + more)[1..] == es[1..] + more;
      Joined(Advance(s, es[0], retries), es[1..], more, retries);
    }
  }
}
