/**
 Three runs by the rule of one run per ref in which an older push is committed after a newer one: it
 is passed over, it is queued late, or a request commits it after its claim was lost.
 */
module OutOfOrder {
  import opened Wrappers
  import opened Text
  import opened Records
  import opened JobQueue
  import opened QueueRuns
  import opened QueueOrder

  lemma EmptyIsInOrder()
    ensures Inv(EMPTY) && InPushOrder(EMPTY) && OneGroup(EMPTY.q)
  {
    EmptyInv();
  }

  // Two pushes to one branch that keeps all its runs; the first asks for a label.

  const FIRST := Job("a", 1, "p", "refs/heads/main", "", false, "c1", [], ["gpu"], false)
  const SECOND := Job("b", 1, "p", "refs/heads/main", "", false, "c2", [], [], false)

  /** A claim by the rule of a runner that offers these labels. */
  function ClaimBy(labels: seq<string>, names: seq<string>, token: string): Step {
    Claim(Rule(true, "r", labels, 2, 0, map[], {}, {}, {}, {}), names, map[], Lease("r", token, 0), Leased)
  }

  const BOTH := map["a" := FIRST, "b" := SECOND]
  const LEASE1 := Lease("r", "t1", 0)
  const LEASE2 := Lease("r", "t2", 0)

  /** Nothing gives way where no run asks for it. */
  lemma NothingYields(q: Queue, job: Job)
    requires !job.autoCancel
    requires forall id | id in q.spool :: !q.spool[id].autoCancel
    requires forall id | id in q.working :: !q.working[id].autoCancel
    ensures Enqueued(q, job) == q.(spool := q.spool[job.id := job])
  {
    hide Competes, Branch;
  }

  lemma MayRun(rule: Rule)
    requires rule == ClaimBy([], [], "").rule || rule == ClaimBy(["gpu"], [], "").rule
    ensures Judge(rule, map[], FIRST) == if rule.labels == [] then Hold else Take
    ensures Judge(rule, map[], SECOND) == Take
    ensures Readable(rule, FIRST) && (rule.labels == [] ==> HeldBack(rule, FIRST))
  {
    assert FIRST.runsOn[0] == "gpu" && rule.runner == "r";
    assert Matches(rule, FIRST) <==> rule.labels != [];
    assert SECOND.runsOn == [] && Matches(rule, SECOND);
    hide Matches;
  }

  /** One job alone in the spool, with nothing at work, is taken if it passes the checks. */
  lemma OneIsTaken(job: Job, labels: seq<string>, token: string, leases: map<string, Lease>)
    requires job == SECOND || (job == FIRST && labels == ["gpu"])
    requires labels == [] || labels == ["gpu"]
    ensures var q, step := Queue(map[job.id := job], map[], leases), ClaimBy(labels, [job.id], token);
            ScanOf(q, step) == (Queue(map[], map[job.id := job], leases), Some(job.id)) && Lists([job.id], q.spool)
  {
    var q, step := Queue(map[job.id := job], map[], leases), ClaimBy(labels, [job.id], token);
    MayRun(step.rule);
    assert MayGo(q, step.rule, job);
    OneOrNoneInOrder([job.id]);
    assert Drop(q.spool, job.id) == map[];
    hide Judge, MayGo, Drop, InOrder;
  }

  /** Of both, a runner without the label takes the second. */
  lemma SecondIsTaken(token: string)
    ensures var q, step := Queue(BOTH, map[], map[]), ClaimBy([], ["a", "b"], token);
            ScanOf(q, step) == (Queue(map["a" := FIRST], map["b" := SECOND], map[]), Some("b"))
            && Lists(["a", "b"], BOTH)
  {
    var q, step := Queue(BOTH, map[], map[]), ClaimBy([], ["a", "b"], token);
    MayRun(step.rule);
    assert MayGo(q, step.rule, SECOND);
    assert Drop(q.spool, "b") == map["a" := FIRST] && Drop(q.spool, "b")["a"] == FIRST;
    hide Judge, MayGo, Drop;
    var verdicts := Judged(q.spool, step.rule, ["a", "b"], map[]);
    assert ["a", "b"][1..] == ["b"];
    assert VerdictOf(verdicts, "a") == Hold && VerdictOf(verdicts, "b") == Take;
    hide Judged;
  }

  // The steps of such runs, one kind after the other.

  lemma Queues(w: World, job: Job)
    requires job.id !in w.known && job.attempt == 1 && Proper(job) && !job.autoCancel
    requires forall id | id in w.q.spool :: !w.q.spool[id].autoCancel
    requires forall id | id in w.q.working :: !w.q.working[id].autoCancel
    ensures Can(w, Enqueue(job))
    ensures Do(w, Enqueue(job)) ==
            w.(q := w.q.(spool := w.q.spool[job.id := job]), known := w.known[job.id := job])
  {
    NothingYields(w.q, job);
    hide Enqueued;
  }

  lemma TakesOne(w: World, labels: seq<string>, names: seq<string>, token: string, id: string, mid: Queue)
    requires Lists(names, w.q.spool) && token !in w.issued && w.q.working == map[]
    requires ScanOf(w.q, ClaimBy(labels, names, token)) == (mid, Some(id))
    ensures Can(w, ClaimBy(labels, names, token))
    ensures Do(w, ClaimBy(labels, names, token)) ==
            w.(q := mid.(leases := mid.leases[id := Lease("r", token, 0)]), issued := w.issued[token := id])
  {
    hide Scan, Judged, Lists;
  }

  lemma Begins(w: World, r: nat, id: string, token: string)
    requires r !in w.requests && id in w.q.working && Owns(w.q, id, token)
    ensures Can(w, Begin(r, id, token))
    ensures Do(w, Begin(r, id, token)) == w.(requests := w.requests[r := Request(id, token)])
  {
  }

  lemma Commits(w: World, r: nat)
    requires r in w.requests
    ensures Can(w, Commit(r)) && w.requests[r].id in Finished(w, Commit(r))
    ensures Do(w, Commit(r)) == w.(requests := w.requests - {r}, done := w.done + {w.requests[r].id})
  {
  }

  lemma Releases(w: World, id: string, token: string)
    requires id in w.q.working && Owns(w.q, id, token)
    ensures Can(w, Release(id, token))
    ensures Do(w, Release(id, token)) ==
            w.(q := Queue(w.q.spool, Drop(w.q.working, id), Drop(w.q.leases, id)), done := w.done + {id})
  {
  }

  predicate Follow(worlds: seq<World>, steps: seq<Step>) {
    && |worlds| == |steps| + 1
    && forall k | 0 <= k < |steps| :: Can(worlds[k], steps[k]) && Do(worlds[k], steps[k]) == worlds[k + 1]
  }

  lemma {:induction false} FollowsUpTo(worlds: seq<World>, steps: seq<Step>, n: nat)
    requires Follow(worlds, steps) && n <= |steps|
    ensures Runs(worlds[0], steps) && After(worlds[0], steps[..n]) == worlds[n]
    decreases |steps|
  {
    hide Can, Do;
    if steps != [] {
      assert Follow(worlds[1..], steps[1..]) by {
        forall k | 0 <= k < |steps[1..]|
          ensures Can(worlds[1..][k], steps[1..][k]) && Do(worlds[1..][k], steps[1..][k]) == worlds[1..][k + 1]
        {
          assert Can(worlds[k + 1], steps[k + 1]) && Do(worlds[k + 1], steps[k + 1]) == worlds[k + 2];
        }
      }
      hide Follow;
      if n > 0 {
        assert steps[..n][0] == steps[0] && steps[..n][1..] == steps[1..][..n - 1];
      }
      FollowsUpTo(worlds[1..], steps[1..], if n > 0 then n - 1 else 0);
    }
  }

  /** The reaper gives up a job whose lease has lapsed, on its only attempt. */
  lemma GivesUp(w: World, id: string)
    requires id in w.q.working && id in w.q.leases && w.q.leases[id].expires == 0 && w.q.working[id].attempt == 1
    ensures Can(w, Reap([id], map[], 0, 1, ""))
    ensures Do(w, Reap([id], map[], 0, 1, "")) ==
            w.(q := Queue(w.q.spool, Drop(w.q.working, id), Drop(w.q.leases, id)), done := w.done + {id})
  {
    assert [id][1..] == [];
    assert Reaped(w.q, [id], map[], 0, 1, "") == ReapOne(w.q, id, map[], 0, 1, "");
    assert Finished(w, Reap([id], map[], 0, 1, "")) == {id};
  }

  /** One run goes on where another ends. */
  lemma FollowsOn(a: seq<World>, s: seq<Step>, b: seq<World>, t: seq<Step>)
    requires Follow(a, s) && Follow(b, t) && a[|s|] == b[0]
    ensures Follow(a + b[1..], s + t)
  {
    hide Can, Do;
    var all, steps := a + b[1..], s + t;
    forall k | 0 <= k < |steps|
      ensures Can(all[k], steps[k]) && Do(all[k], steps[k]) == all[k + 1]
    {
      if k >= |s| {
        assert steps[k] == t[k - |s|] && all[k] == b[k - |s|] && all[k + 1] == b[k - |s| + 1];
      }
    }
  }

  /** It is looked at for its finish, committed and released. */
  function Finishing(id: string, token: string, r: nat): seq<Step> {
    [Begin(r, id, token), Commit(r), Release(id, token)]
  }

  lemma Finishes(w: World, id: string, token: string, r: nat) returns (worlds: seq<World>)
    requires w.q.working.Keys == {id} && Owns(w.q, id, token) && r !in w.requests
    ensures Follow(worlds, Finishing(id, token, r)) && worlds[0] == w
    ensures id in Finished(worlds[1], Commit(r))
    ensures worlds[3] ==
            w.(q := Queue(w.q.spool, map[], Drop(w.q.leases, id)), done := w.done + {id})
  {
    hide Can, Do, Finished;
    Begins(w, r, id, token);
    var w1 := Do(w, Begin(r, id, token));
    Commits(w1, r);
    var w2 := Do(w1, Commit(r));
    assert w2.requests == w.requests;
    Releases(w2, id, token);
    var w3 := Do(w2, Release(id, token));
    assert w3.q.working == map[];
    worlds := [w, w1, w2, w3];
  }

  /** One job alone in the spool is taken and finished. */
  function Running(id: string, labels: seq<string>, token: string, r: nat): seq<Step> {
    [ClaimBy(labels, [id], token)] + Finishing(id, token, r)
  }

  lemma RunsAlone(w: World, job: Job, labels: seq<string>, token: string, r: nat) returns (worlds: seq<World>)
    requires job == SECOND || (job == FIRST && labels == ["gpu"])
    requires labels == [] || labels == ["gpu"]
    requires w.q.spool == map[job.id := job] && w.q.working == map[] && job.id !in w.q.leases
    requires token !in w.issued && r !in w.requests
    ensures Follow(worlds, Running(job.id, labels, token, r)) && worlds[0] == w
    ensures job.id in Finished(worlds[2], Commit(r))
    ensures worlds[1].q == Queue(map[], map[job.id := job], w.q.leases[job.id := Lease("r", token, 0)])
    ensures worlds[4] ==
            w.(q := Queue(map[], map[], w.q.leases), issued := w.issued[token := job.id], done := w.done + {job.id})
  {
    var claim, w1 := ClaimsAlone(w, job, labels, token);
    assert w1.q.working.Keys == {job.id} && Owns(w1.q, job.id, token);
    hide Can, Do, Finished, ClaimBy, Finishing, Follow, Owns;
    var rest := Finishes(w1, job.id, token, r);
    assert Drop(w1.q.leases, job.id) == w.q.leases;
    FinishingLength(job.id, token, r);
    worlds := Behind(w, claim, w1, rest, Finishing(job.id, token, r));
    assert Running(job.id, labels, token, r) == [claim] + Finishing(job.id, token, r);
  }

  lemma FinishingLength(id: string, token: string, r: nat)
    ensures |Finishing(id, token, r)| == 3
  {
  }

  /** A run behind a first step. */
  lemma Behind(w: World, step: Step, w1: World, rest: seq<World>, steps: seq<Step>) returns (worlds: seq<World>)
    requires Follow([w, w1], [step]) && Follow(rest, steps) && rest[0] == w1
    ensures Follow(worlds, [step] + steps) && |worlds| == |rest| + 1 == |steps| + 2
    ensures worlds[0] == w && forall k | 0 <= k < |rest| :: worlds[k + 1] == rest[k]
  {
    FollowsOn([w, w1], [step], rest, steps);
    worlds := [w, w1] + rest[1..];
    hide Can, Do;
  }

  lemma ClaimsAlone(w: World, job: Job, labels: seq<string>, token: string) returns (claim: Step, w1: World)
    requires job == SECOND || (job == FIRST && labels == ["gpu"])
    requires labels == [] || labels == ["gpu"]
    requires w.q.spool == map[job.id := job] && w.q.working == map[] && token !in w.issued
    ensures claim == ClaimBy(labels, [job.id], token) && Follow([w, w1], [claim])
    ensures var q := Queue(map[], map[job.id := job], w.q.leases[job.id := Lease("r", token, 0)]);
            w1 == w.(q := q, issued := w.issued[token := job.id])
  {
    OneIsTaken(job, labels, token, w.q.leases);
    hide Can, Do, ScanOf, Lists;
    TakesOne(w, labels, [job.id], token, job.id, Queue(map[], map[job.id := job], w.q.leases));
    claim := ClaimBy(labels, [job.id], token);
    w1 := Do(w, claim);
  }

  // First: a simple run that is passed over.

  /** Both are pushed; a runner without the label takes and finishes the second before the first. */
  function Overtaking(): seq<Step> {
    [Enqueue(FIRST), Enqueue(SECOND), ClaimBy([], ["a", "b"], "t1")] + Finishing("b", "t1", 0)
    + Running("a", ["gpu"], "t2", 1)
  }

  lemma SecondGoes() returns (worlds: seq<World>)
    ensures Follow(worlds, Overtaking()[..3]) && worlds[0] == EMPTY
    ensures worlds[2] == World(Queue(BOTH, map[], map[]), map[], BOTH, map[], {})
    ensures var q := Queue(map["a" := FIRST], map["b" := SECOND], map["b" := Lease("r", "t1", 0)]);
            worlds[3] == World(q, map["t1" := "b"], BOTH, map[], {})
  {
    hide Can, Do, ScanOf, Lists;
    Queues(EMPTY, FIRST);
    var w1 := Do(EMPTY, Enqueue(FIRST));
    Queues(w1, SECOND);
    var w2 := Do(w1, Enqueue(SECOND));
    assert w2.q.spool == BOTH && w2.known == BOTH;
    SecondIsTaken("t1");
    TakesOne(w2, [], ["a", "b"], "t1", "b", Queue(map["a" := FIRST], map["b" := SECOND], map[]));
    hide ClaimBy;
    worlds := [EMPTY, w1, w2, Do(w2, ClaimBy([], ["a", "b"], "t1"))];
  }

  /**
   Such a run: by the rule throughout, the later push is claimed, built and committed while the earlier
   one still waits; that is committed only then. It is the first claim that breaks the order.
   */
  lemma NewerFinishesFirst()
    ensures Before(FIRST, SECOND) && Runs(EMPTY, Overtaking()) && ClaimsByRule(Overtaking())
    ensures "b" in Finished(After(EMPTY, Overtaking()[..4]), Overtaking()[4])
    ensures "a" in Finished(After(EMPTY, Overtaking()[..8]), Overtaking()[8])
    ensures InPushOrder(EMPTY) && Disorders(After(EMPTY, Overtaking()[..2]), Overtaking()[2])
  {
    EmptyIsInOrder();
    assert Before(FIRST, SECOND) && ClaimsByRule(Overtaking()) && |Overtaking()| == 10;
    var worlds := OvertakingWorlds();
    ClaimDisorders(worlds[2]);
    hide Can, Do, Disorders, InPushOrder, Before, ClaimsByRule, Inv, Finished, Follow, Overtaking;
    FollowsUpTo(worlds, Overtaking(), 2);
    FollowsUpTo(worlds, Overtaking(), 4);
    FollowsUpTo(worlds, Overtaking(), 8);
  }

  lemma OvertakingWorlds() returns (worlds: seq<World>)
    ensures Follow(worlds, Overtaking()) && worlds[0] == EMPTY
    ensures worlds[2] == World(Queue(BOTH, map[], map[]), map[], BOTH, map[], {})
    ensures "b" in Finished(worlds[4], Overtaking()[4]) && "a" in Finished(worlds[8], Overtaking()[8])
  {
    var run := Overtaking();
    var first := SecondGoes();
    hide Can, Do, Finished, ClaimBy, Follow;
    FollowsLength(first, run[..3]);
    var second := Finishes(first[3], "b", "t1", 0);
    FollowsLength(second, Finishing("b", "t1", 0));
    var third := RunsAlone(second[3], FIRST, ["gpu"], "t2", 1);
    FollowsLength(third, Running("a", ["gpu"], "t2", 1));
    assert run[..3] + Finishing("b", "t1", 0) + Running("a", ["gpu"], "t2", 1) == run;
    worlds := Joined(first, run[..3], second, Finishing("b", "t1", 0), third, Running("a", ["gpu"], "t2", 1));
    FollowsLength(worlds, run);
    assert worlds[3 + 1] == second[1] && worlds[3 + 3 + 2] == third[2];
  }

  lemma FollowsLength(worlds: seq<World>, steps: seq<Step>)
    requires Follow(worlds, steps)
    ensures |worlds| == |steps| + 1
  {
  }

  /** Two runs in one, with where their worlds are. */
  lemma Paired(a: seq<World>, s: seq<Step>, b: seq<World>, t: seq<Step>) returns (all: seq<World>)
    requires Follow(a, s) && Follow(b, t) && |a| == |s| + 1 && |b| == |t| + 1 && a[|s|] == b[0]
    ensures Follow(all, s + t) && |all| == |s| + |t| + 1
    ensures forall k | 0 <= k <= |s| :: all[k] == a[k]
    ensures forall k | 0 <= k <= |t| :: all[|s| + k] == b[k]
  {
    FollowsOn(a, s, b, t);
    all := a + b[1..];
    hide Follow;
  }

  lemma Joined(a: seq<World>, s: seq<Step>, b: seq<World>, t: seq<Step>, c: seq<World>, u: seq<Step>)
    returns (all: seq<World>)
    requires Follow(a, s) && Follow(b, t) && Follow(c, u) && |a| == |s| + 1 && |b| == |t| + 1 && |c| == |u| + 1
    requires a[|s|] == b[0] && b[|t|] == c[0]
    ensures Follow(all, s + t + u) && |all| == |s| + |t| + |u| + 1
    ensures forall k | 0 <= k <= |s| :: all[k] == a[k]
    ensures forall k | 0 <= k <= |t| :: all[|s| + k] == b[k]
    ensures forall k | 0 <= k <= |u| :: all[|s| + |t| + k] == c[k]
  {
    hide Follow;
    var ab := Paired(a, s, b, t);
    assert ab[|s| + |t|] == b[|t|];
    all := Paired(ab, s + t, c, u);
    forall k | 0 <= k <= |s|
      ensures all[k] == a[k]
    {
      assert all[k] == ab[k];
    }
    forall k | 0 <= k <= |t|
      ensures all[|s| + k] == b[k]
    {
      assert all[|s| + k] == ab[|s| + k];
    }
  }

  lemma ClaimDisorders(w: World)
    requires w == World(Queue(BOTH, map[], map[]), map[], BOTH, map[], {})
    ensures Disorders(w, Overtaking()[2])
  {
    SecondIsTaken("t1");
    MayRun(Overtaking()[2].rule);
    assert Before(FIRST, SECOND);
    hide ScanOf, Before, HeldBack, Readable;
    assert Older(w, "a", "b") && LeftOpen(w, Overtaking()[2].rule, "b", "a");
  }

  // Second: a run whose id was drawn first and which is queued after the newer one has finished.

  function ComingLate(): seq<Step> {
    [Enqueue(SECOND)] + Running("b", [], "t1", 0) + ([Enqueue(FIRST)] + Running("a", ["gpu"], "t2", 1))
  }

  /** A run of one job from its queueing on, beside what is done. */
  lemma QueuedAlone(w: World, job: Job, labels: seq<string>, token: string, r: nat) returns (worlds: seq<World>)
    requires job == SECOND || (job == FIRST && labels == ["gpu"])
    requires labels == [] || labels == ["gpu"]
    requires w.q == EMPTY.q && job.id !in w.known && token !in w.issued && r !in w.requests
    ensures Follow(worlds, [Enqueue(job)] + Running(job.id, labels, token, r)) && worlds[0] == w
    ensures worlds[1] == w.(q := Queue(map[job.id := job], map[], map[]), known := w.known[job.id := job])
    ensures job.id in Finished(worlds[3], Commit(r))
    ensures worlds[5] ==
            w.(known := w.known[job.id := job], issued := w.issued[token := job.id], done := w.done + {job.id})
  {
    hide Can, Do, Finished, Running;
    Queues(w, job);
    var w1 := Do(w, Enqueue(job));
    assert w1.q.spool == map[job.id := job];
    var rest := RunsAlone(w1, job, labels, token, r);
    assert Follow([w, w1], [Enqueue(job)]);
    FollowsLength(rest, Running(job.id, labels, token, r));
    FollowsOn([w, w1], [Enqueue(job)], rest, Running(job.id, labels, token, r));
    worlds := [w, w1] + rest[1..];
    RunningLength(job.id, labels, token, r);
  }

  lemma RunningLength(id: string, labels: seq<string>, token: string, r: nat)
    ensures |Running(id, labels, token, r)| == 4 && Running(id, labels, token, r)[2] == Commit(r)
  {
  }

  lemma ComingLateWorlds() returns (worlds: seq<World>)
    ensures Follow(worlds, ComingLate()) && worlds[0] == EMPTY
    ensures worlds[5].done == {"b"} && worlds[5].known == map["b" := SECOND] && worlds[5].q == EMPTY.q
    ensures "b" in Finished(worlds[3], ComingLate()[3]) && "a" in Finished(worlds[8], ComingLate()[8])
  {
    hide Can, Do, Finished, Running, Follow;
    RunningLength("b", [], "t1", 0);
    RunningLength("a", ["gpu"], "t2", 1);
    var s, t := [Enqueue(SECOND)] + Running("b", [], "t1", 0), [Enqueue(FIRST)] + Running("a", ["gpu"], "t2", 1);
    assert s + t == ComingLate();
    var first := QueuedAlone(EMPTY, SECOND, [], "t1", 0);
    FollowsLength(first, s);
    var second := QueuedAlone(first[5], FIRST, ["gpu"], "t2", 1);
    FollowsLength(second, t);
    FollowsOn(first, s, second, t);
    worlds := first + second[1..];
    assert worlds[8] == second[3];
  }

  /**
   The later push is queued, built and committed before the earlier one, whose hook was slower, is even
   queued; that comes to work and is committed all the same. The queueing breaks the order.
   */
  lemma OlderComesLate()
    ensures Before(FIRST, SECOND) && Runs(EMPTY, ComingLate()) && ClaimsByRule(ComingLate())
    ensures "b" in Finished(After(EMPTY, ComingLate()[..3]), ComingLate()[3])
    ensures "a" in Finished(After(EMPTY, ComingLate()[..8]), ComingLate()[8])
    ensures InPushOrder(EMPTY) && Disorders(After(EMPTY, ComingLate()[..5]), ComingLate()[5])
  {
    EmptyIsInOrder();
    assert Before(FIRST, SECOND) && ClaimsByRule(ComingLate()) && |ComingLate()| == 10;
    assert ComingLate()[5] == Enqueue(FIRST);
    var worlds := ComingLateWorlds();
    LateIsLate(worlds[5]);
    hide Can, Do, Disorders, InPushOrder, Before, ClaimsByRule, Inv, Finished, Follow, ComingLate;
    FollowsUpTo(worlds, ComingLate(), 3);
    FollowsUpTo(worlds, ComingLate(), 5);
    FollowsUpTo(worlds, ComingLate(), 8);
  }

  lemma LateIsLate(w: World)
    requires w.done == {"b"} && w.known == map["b" := SECOND] && w.q == EMPTY.q
    ensures Disorders(w, Enqueue(FIRST))
  {
    assert Begun(w, "b") && Before(FIRST, w.known["b"]);
    assert !Outdated(w.q, FIRST);
  }

  // Third: a commit under a claim that was lost while the request was on its way.

  function Stale(): seq<Step> {
    [Enqueue(FIRST), ClaimBy(["gpu"], ["a"], "t1"), Begin(0, "a", "t1"), Reap(["a"], map[], 0, 1, "")]
    + ([Enqueue(SECOND)] + Running("b", [], "t2", 1)) + [Commit(0)]
  }

  lemma LosesItsLease() returns (worlds: seq<World>)
    ensures Follow(worlds, Stale()[..4]) && worlds[0] == EMPTY
    ensures worlds[4].q == EMPTY.q && worlds[4].known == map["a" := FIRST] && worlds[4].issued == map["t1" := "a"]
    ensures worlds[4].requests == map[0 := Request("a", "t1")] && worlds[4].done == {"a"}
  {
    hide Can, Do, ScanOf, Lists;
    Queues(EMPTY, FIRST);
    var w1 := Do(EMPTY, Enqueue(FIRST));
    assert w1.q == Queue(map["a" := FIRST], map[], map[]);
    OneIsTaken(FIRST, ["gpu"], "t1", map[]);
    TakesOne(w1, ["gpu"], ["a"], "t1", "a", Queue(map[], map["a" := FIRST], map[]));
    hide ClaimBy;
    var w2 := Do(w1, ClaimBy(["gpu"], ["a"], "t1"));
    Begins(w2, 0, "a", "t1");
    var w3 := Do(w2, Begin(0, "a", "t1"));
    GivesUp(w3, "a");
    var w4 := Do(w3, Reap(["a"], map[], 0, 1, ""));
    assert w4.q == EMPTY.q;
    worlds := [EMPTY, w1, w2, w3, w4];
  }

  lemma StaleWorlds() returns (worlds: seq<World>)
    ensures Follow(worlds, Stale()) && worlds[0] == EMPTY
    ensures worlds[5].q == Queue(map["b" := SECOND], map[], map[]) && worlds[5].known == BOTH
    ensures worlds[5].requests == map[0 := Request("a", "t1")]
    ensures "b" in Finished(worlds[7], Stale()[7]) && "a" in Finished(worlds[9], Stale()[9])
  {
    var s, t := Stale()[..4], [Enqueue(SECOND)] + Running("b", [], "t2", 1);
    RunningLength("b", [], "t2", 1);
    var first := LosesItsLease();
    FollowsLength(first, s);
    assert s + t + [Commit(0)] == Stale();
    hide Can, Do, Finished, Running, Follow, Stale;
    var second := QueuedAlone(first[4], SECOND, [], "t2", 1);
    FollowsLength(second, t);
    Commits(second[5], 0);
    var third := [second[5], Do(second[5], Commit(0))];
    assert |third| == 2;
    assert Follow(third, [Commit(0)]) by {
      OneStep(second[5], Commit(0));
    }
    worlds := Joined(first, s, second, t, third, [Commit(0)]);
    assert worlds[4 + 1] == second[1] && worlds[4 + 3] == second[3] && worlds[4 + 5 + 0] == third[0];
    assert Stale()[4 + 3] == t[3] && Stale()[4 + 5] == Commit(0);
    assert map["a" := FIRST]["b" := SECOND] == BOTH;
    FollowsLength(worlds, Stale());
  }

  lemma OneStep(w: World, step: Step)
    requires Can(w, step)
    ensures Follow([w, Do(w, step)], [step])
  {
    hide Can, Do;
  }

  /**
   The earlier push has been looked at for its finish, when its lease lapses and it is given up; the later
   one is queued, built and committed; then the request of the earlier one commits. The claim beside
   the request breaks the order.
   */
  lemma StaleCommitIsLate()
    ensures Before(FIRST, SECOND) && Runs(EMPTY, Stale()) && ClaimsByRule(Stale())
    ensures "b" in Finished(After(EMPTY, Stale()[..7]), Stale()[7]) && Stale()[9] == Commit(0)
    ensures "a" in Finished(After(EMPTY, Stale()[..9]), Stale()[9])
    ensures InPushOrder(EMPTY) && Disorders(After(EMPTY, Stale()[..5]), Stale()[5])
  {
    EmptyIsInOrder();
    assert Before(FIRST, SECOND) && ClaimsByRule(Stale()) && |Stale()| == 10;
    assert Stale()[5] == ClaimBy([], ["b"], "t2") && Stale()[9] == Commit(0);
    var worlds := StaleWorlds();
    RequestIsOpen(worlds[5]);
    hide Can, Do, Disorders, InPushOrder, Before, ClaimsByRule, Inv, Finished, Follow, Stale;
    FollowsUpTo(worlds, Stale(), 5);
    FollowsUpTo(worlds, Stale(), 7);
    FollowsUpTo(worlds, Stale(), 9);
  }

  lemma RequestIsOpen(w: World)
    requires w.q == Queue(map["b" := SECOND], map[], map[]) && w.known == BOTH
    requires w.requests == map[0 := Request("a", "t1")]
    ensures Disorders(w, ClaimBy([], ["b"], "t2"))
  {
    OneIsTaken(SECOND, [], "t2", map[]);
    assert Older(w, "a", "b");
    assert w.requests[0].id == "a";
    hide ScanOf, HeldBack, Readable;
    assert LeftOpen(w, ClaimBy([], ["b"], "t2").rule, "b", "a");
  }
}
