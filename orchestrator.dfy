/**
 * The main loop of the benchmark: for each data size in order, verify every
 * target on that size's sample, keep the targets that are not skipped, and
 * register an Encode and a Decode timing task for each of them.
 *
 * A target's `skip` is only ever set, so a target that fails at one size is
 * left out of the timing at every later size, even where it verifies; it is
 * still verified at every size, and a later success still overwrites its
 * `encoded` payload.
 */
module Orchestrator {
  import opened Workload
  import opened Adapter
  import opened Tasks

  /** `dataSizes`. */
  const DataSizes: seq<nat> := [10, 100]

  /** The target passes verification on every one of the given samples. */
  predicate PassesAll(t: Target, tiers: seq<Sample>) {
    forall j :: 0 <= j < |tiers| ==> t.Passes(tiers[j])
  }

  /**
   * The targets eligible for timing after the given tiers: those not skipped
   * before the run (`skipped`) that passed at every tier so far, in list order.
   */
  function Survivors(ts: seq<Target>, skipped: set<Target>, tiers: seq<Sample>): (r: seq<Target>)
    ensures forall k :: 0 <= k < |r| ==> r[k] in ts && r[k] !in skipped && PassesAll(r[k], tiers)
    ensures forall k :: 0 <= k < |ts| && ts[k] !in skipped && PassesAll(ts[k], tiers) ==> ts[k] in r
  {
    if ts == [] then []
    else (if ts[0] !in skipped && PassesAll(ts[0], tiers) then [ts[0]] else []) + Survivors(ts[1..], skipped, tiers)
  }

  /** The `encoded` field after verifying at the given tiers, starting from `initial`. */
  function LastPayload(t: Target, tiers: seq<Sample>, initial: Option<Payload>): Option<Payload>
  {
    if tiers == [] then initial
    else if t.Passes(tiers[|tiers| - 1]) then Some(t.PayloadFor(tiers[|tiers| - 1]))
    else LastPayload(t, tiers[..|tiers| - 1], initial)
  }

  /** The payload a target verified with at a tier, if it passed there. */
  function VerifiedPayload(t: Target, data: Sample): Option<Payload> {
    if t.Passes(data) then Some(t.PayloadFor(data)) else None
  }

  /**
   * The tasks of one tier for the given live targets: for each, in order, an
   * Encode task on the tier's sample and a Decode task on the payload the target
   * verified with at this tier.
   */
  function TierTasks(live: seq<Target>, data: Sample, size: nat): (tasks: seq<Task>)
    ensures |tasks| == 2 * |live|
  {
    seq(2 * |live|, a requires 0 <= a < 2 * |live| =>
      var t := live[a / 2];
      if a % 2 == 0 then EncodeTask(Label(t.name, Encode, size), t, data)
      else DecodeTask(Label(t.name, Decode, size), t, VerifiedPayload(t, data)))
  }

  /** Two tasks per live target, Encode at even and Decode at odd positions, in target order. */
  lemma TierTasksAt(live: seq<Target>, data: Sample, size: nat, k: nat)
    requires k < |live|
    ensures TierTasks(live, data, size)[2 * k] == EncodeTask(Label(live[k].name, Encode, size), live[k], data)
    ensures TierTasks(live, data, size)[2 * k + 1] == DecodeTask(Label(live[k].name, Decode, size), live[k], VerifiedPayload(live[k], data))
  {
    assert (2 * k) / 2 == k && (2 * k) % 2 == 0;
    assert (2 * k + 1) / 2 == k && (2 * k + 1) % 2 == 1;
  }

  /** The verification loop of one tier, over every target, skipped or not. */
  method VerifyTier(targets: seq<Target>, data: Sample)
    modifies targets
    ensures forall t :: t in targets ==>
      && t.skip == (old(t.skip) || !t.Passes(data))
      && t.encoded == if t.Passes(data) then Some(t.PayloadFor(data)) else old(t.encoded)
  {
    for k := 0 to |targets|
      invariant forall t :: t in targets[..k] ==>
        && t.skip == (old(t.skip) || !t.Passes(data))
        && t.encoded == if t.Passes(data) then Some(t.PayloadFor(data)) else old(t.encoded)
      invariant forall t :: t in targets && t !in targets[..k] ==>
        t.skip == old(t.skip) && t.encoded == old(t.encoded)
    {
      targets[k].VerifyWith(data);
      assert targets[..k + 1] == targets[..k] + [targets[k]];
    }
    assert targets[..|targets|] == targets;
  }

  /**
   * One iteration of the size loop: verify, filter, register. The ghost
   * parameters name the history: the targets skipped before the run, the
   * samples of the earlier tiers and each target's `encoded` before the run.
   * If `skip` and `encoded` record that history on entry, they record it with
   * this tier added on exit, and the tasks are those of the survivors.
   */
  method RunTier(targets: seq<Target>, data: Sample, size: nat,
                 ghost skipped: set<Target>, ghost earlier: seq<Sample>, ghost initial: map<Target, Option<Payload>>)
    returns (tasks: seq<Task>)
    requires Recorded(targets, skipped, earlier, initial)
    modifies targets
    ensures Recorded(targets, skipped, earlier + [data], initial)
    ensures tasks == TierTasks(Survivors(targets, skipped, earlier + [data]), data, size)
  {
    VerifyTier(targets, data);
    var runnable := Runnable(targets);
    tasks := RegisterTasks(runnable, data, size);
    AfterTier(targets, skipped, earlier, data, initial);
    forall k | 0 <= k < |runnable|
      ensures runnable[k].encoded == VerifiedPayload(runnable[k], data)
    {
      assert runnable[k] in targets;
    }
    RegisteredAreTierTasks(runnable, tasks, data, size);
  }

  /**
   * `skip` and `encoded` record the history: each target is skipped exactly when
   * it was skipped before the run or failed at one of the tiers so far, and holds
   * the payload of the last tier it passed, or its `encoded` from before the run.
   */
  ghost predicate Recorded(targets: seq<Target>, skipped: set<Target>, tiers: seq<Sample>, initial: map<Target, Option<Payload>>)
    reads targets
  {
    forall t :: t in targets ==>
      && t in initial
      && t.skip == (t in skipped || !PassesAll(t, tiers))
      && t.encoded == LastPayload(t, tiers, initial[t])
  }

  /** With each runnable target holding the payload it verified with, registration builds the tier's tasks. */
  lemma RegisteredAreTierTasks(runnable: seq<Target>, tasks: seq<Task>, data: Sample, size: nat)
    requires forall k :: 0 <= k < |runnable| ==> runnable[k].encoded == VerifiedPayload(runnable[k], data)
    requires |tasks| == 2 * |runnable|
    requires forall k :: 0 <= k < |runnable| ==>
      tasks[2 * k] == EncodeTask(Label(runnable[k].name, Encode, size), runnable[k], data) &&
      tasks[2 * k + 1] == DecodeTask(Label(runnable[k].name, Decode, size), runnable[k], runnable[k].encoded)
    ensures tasks == TierTasks(runnable, data, size)
  {
    forall a | 0 <= a < |tasks|
      ensures tasks[a] == TierTasks(runnable, data, size)[a]
    {
      var k := a / 2;
      TierTasksAt(runnable, data, size, k);
      assert a == 2 * k || a == 2 * k + 1;
    }
  }

  /** When `skip` records exactly the failures so far, the filter yields the survivors. */
  lemma {:induction false} RunnableIsSurvivors(ts: seq<Target>, skipped: set<Target>, tiers: seq<Sample>)
    requires forall t :: t in ts ==> t.skip == (t in skipped || !PassesAll(t, tiers))
    ensures Runnable(ts) == Survivors(ts, skipped, tiers)
  {
    if ts != [] {
      RunnableIsSurvivors(ts[1..], skipped, tiers);
    }
  }

  /** The task lists of the first `n` tiers. */
  ghost function Schedule(targets: seq<Target>, skipped: set<Target>, tiers: seq<Sample>, n: nat): seq<seq<Task>>
    requires n <= |tiers| && n <= |DataSizes|
  {
    if n == 0 then []
    else Schedule(targets, skipped, tiers, n - 1) + [TierTasks(Survivors(targets, skipped, tiers[..n]), tiers[n - 1], DataSizes[n - 1])]
  }

  /** The targets whose `skip` is set. */
  ghost function SkippedSet(ts: seq<Target>): set<Target>
    reads ts
  {
    set t | t in ts && t.skip
  }

  /** Each target's `encoded` field. */
  ghost function EncodedMap(ts: seq<Target>): map<Target, Option<Payload>>
    reads ts
  {
    map t | t in ts :: t.encoded
  }

  /**
   * The main loop over the data sizes, on the samples built for sizes 10 and
   * 100 (`Tiers`): after the run, `skip` records every failure at any tier, the
   * `encoded` field holds the payload of the last tier the target passed, and
   * each tier's task list is that of the targets that passed at it and at every
   * tier before it. TwoTiers and TwoTierSchedule spell these out.
   */
  method Run(targets: seq<Target>, sample10: Sample, sample100: Sample) returns (schedule: seq<seq<Task>>)
    modifies targets
    ensures Recorded(targets, old(SkippedSet(targets)), Tiers(sample10, sample100), old(EncodedMap(targets)))
    ensures schedule == Schedule(targets, old(SkippedSet(targets)), Tiers(sample10, sample100), |DataSizes|)
  {
    ghost var skipped := SkippedSet(targets);
    ghost var initial := EncodedMap(targets);
    ghost var tiers := Tiers(sample10, sample100);
    schedule := [];
    for ti := 0 to |DataSizes|
      invariant Recorded(targets, skipped, tiers[..ti], initial)
      invariant schedule == Schedule(targets, skipped, tiers, ti)
    {
      var size := DataSizes[ti];
      var data := if size == 10 then sample10 else sample100;
      assert data == tiers[ti];
      var tasks := RunTier(targets, data, size, skipped, tiers[..ti], initial);
      assert tiers[..ti + 1] == tiers[..ti] + [data];
      schedule := schedule + [tasks];
    }
    assert tiers[..|DataSizes|] == tiers;
  }

  /** The samples of the tiers, in the order of DataSizes. */
  function Tiers(sample10: Sample, sample100: Sample): seq<Sample> {
    [sample10, sample100]
  }

  /** After both tiers: skipped on any failure, and the payload of the last tier passed. */
  lemma TwoTiers(t: Target, sample10: Sample, sample100: Sample, initial: Option<Payload>)
    ensures PassesAll(t, Tiers(sample10, sample100)) == (t.Passes(sample10) && t.Passes(sample100))
    ensures LastPayload(t, Tiers(sample10, sample100), initial) ==
            if t.Passes(sample100) then Some(t.PayloadFor(sample100))
            else if t.Passes(sample10) then Some(t.PayloadFor(sample10))
            else initial
  {
    ExtendTiers(t, [], sample10, initial);
    ExtendTiers(t, [sample10], sample100, initial);
    assert [] + [sample10] == [sample10];
    assert [sample10] + [sample100] == Tiers(sample10, sample100);
  }

  /**
   * What the run leaves on each target: `skip` set when it was set before or the
   * target failed at size 10 or at size 100; `encoded` the payload of size 100 if
   * it passed there, else that of size 10 if it passed there, else unchanged.
   */
  lemma AfterTwoTiers(targets: seq<Target>, skipped: set<Target>, sample10: Sample, sample100: Sample,
                      initial: map<Target, Option<Payload>>, t: Target)
    requires Recorded(targets, skipped, Tiers(sample10, sample100), initial)
    requires t in targets
    ensures t in initial
    ensures t.skip == (t in skipped || !t.Passes(sample10) || !t.Passes(sample100))
    ensures t.encoded ==
            if t.Passes(sample100) then Some(t.PayloadFor(sample100))
            else if t.Passes(sample10) then Some(t.PayloadFor(sample10))
            else initial[t]
  {
    TwoTiers(t, sample10, sample100, initial[t]);
  }

  /**
   * The two task lists: at size 10 those of the targets that pass at size 10; at
   * size 100 those of the targets that pass at both sizes, so a target that
   * failed at size 10 gets no task at size 100 even if it passes there.
   */
  lemma TwoTierSchedule(targets: seq<Target>, skipped: set<Target>, sample10: Sample, sample100: Sample)
    ensures Schedule(targets, skipped, Tiers(sample10, sample100), |DataSizes|) ==
      [TierTasks(Survivors(targets, skipped, [sample10]), sample10, 10),
       TierTasks(Survivors(targets, skipped, [sample10, sample100]), sample100, 100)]
  {
    var tiers := Tiers(sample10, sample100);
    assert tiers[..1] == [sample10];
    assert tiers[..2] == tiers;
    assert Schedule(targets, skipped, tiers, 1) == [TierTasks(Survivors(targets, skipped, [sample10]), sample10, 10)];
  }

  /**
   * After verifying at one more tier, `skip` and `encoded` again record the
   * tiers so far, and the runnable targets are the survivors of those tiers.
   */
  lemma AfterTier(targets: seq<Target>, skipped: set<Target>, earlier: seq<Sample>, data: Sample,
                  initial: map<Target, Option<Payload>>)
    requires forall t :: t in targets ==> t in initial
    requires forall t :: t in targets ==>
      && t.skip == ((t in skipped || !PassesAll(t, earlier)) || !t.Passes(data))
      && t.encoded == if t.Passes(data) then Some(t.PayloadFor(data)) else LastPayload(t, earlier, initial[t])
    ensures Recorded(targets, skipped, earlier + [data], initial)
    ensures Runnable(targets) == Survivors(targets, skipped, earlier + [data])
  {
    forall t | t in targets
      ensures t.skip == (t in skipped || !PassesAll(t, earlier + [data]))
      ensures t.encoded == LastPayload(t, earlier + [data], initial[t])
    {
      ExtendTiers(t, earlier, data, initial[t]);
    }
    RunnableIsSurvivors(targets, skipped, earlier + [data]);
  }

  /** Verifying at one more tier: one more test to pass, and a new payload on success. */
  lemma ExtendTiers(t: Target, tiers: seq<Sample>, data: Sample, initial: Option<Payload>)
    ensures PassesAll(t, tiers + [data]) == (PassesAll(t, tiers) && t.Passes(data))
    ensures LastPayload(t, tiers + [data], initial) ==
            if t.Passes(data) then Some(t.PayloadFor(data)) else LastPayload(t, tiers, initial)
  {
    assert (tiers + [data])[..|tiers|] == tiers;
    if PassesAll(t, tiers) && t.Passes(data) {
      forall j | 0 <= j < |tiers| + 1
        ensures t.Passes((tiers + [data])[j])
      {
        if j < |tiers| {
          assert (tiers + [data])[j] == tiers[j];
        }
      }
    }
    if PassesAll(t, tiers + [data]) {
      forall j | 0 <= j < |tiers|
        ensures t.Passes(tiers[j])
      {
        assert (tiers + [data])[j] == tiers[j];
      }
      assert (tiers + [data])[|tiers|] == data;
    }
  }

  /**
   * With distinct target names, the tasks of one tier have distinct names, so a
   * registry keyed by task name holds every one of them.
   */
  lemma TierLabelsDistinct(live: seq<Target>, data: Sample, size: nat)
    requires forall i, j :: 0 <= i < j < |live| ==> live[i].name != live[j].name
    ensures forall a, b :: 0 <= a < b < |TierTasks(live, data, size)| ==>
      TierTasks(live, data, size)[a].taskName != TierTasks(live, data, size)[b].taskName
  {
    var tasks := TierTasks(live, data, size);
    forall a, b | 0 <= a < b < |tasks|
      ensures tasks[a].taskName != tasks[b].taskName
    {
      var ka, kb := a / 2, b / 2;
      var opa := if a % 2 == 0 then Encode else Decode;
      var opb := if b % 2 == 0 then Encode else Decode;
      assert a == 2 * ka + a % 2 && b == 2 * kb + b % 2;
      assert tasks[a].taskName == Label(live[ka].name, opa, size);
      assert tasks[b].taskName == Label(live[kb].name, opb, size);
      LabelInjective(live[ka].name, opa, live[kb].name, opb, size);
    }
  }

  /**
   * A target that fails at some tier is not eligible at any later tier, however
   * the later tiers go.
   */
  lemma {:induction false} FailureIsPermanent(ts: seq<Target>, skipped: set<Target>, earlier: seq<Sample>, later: seq<Sample>, k: nat)
    requires k < |ts|
    requires !PassesAll(ts[k], earlier)
    ensures ts[k] !in Survivors(ts, skipped, earlier + later)
  {
    var j :| 0 <= j < |earlier| && !ts[k].Passes(earlier[j]);
    assert (earlier + later)[j] == earlier[j];
  }
}
