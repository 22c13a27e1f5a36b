/**
 * Selecting the runnable targets of a tier and registering their timing tasks.
 *
 * The timing library is not modelled: its task list is the sequence of tasks
 * in the order they are added, each with its label, its target and what the
 * timed closure runs.
 */
module Tasks {
  import opened Decimal
  import opened Workload
  import opened Adapter

  datatype Operation = Encode | Decode

  function OperationName(op: Operation): string {
    match op
    case Encode => "Encode"
    case Decode => "Decode"
  }

  /** The task name "<name> - Encode (size: <size>)" or "<name> - Decode (size: <size>)". */
  function Label(name: string, op: Operation, size: nat): (s: string)
    ensures |s| == |name| + 18 + |NatToString(size)|
    ensures s[|name| + 3] == OperationName(op)[0]
  {
    name + LabelSuffix(op, size)
  }

  /** " - Encode (size: n)" or " - Decode (size: n)": equally long for both operations, told apart by the fourth character. */
  function LabelSuffix(op: Operation, size: nat): (s: string)
    ensures |s| == 18 + |NatToString(size)|
    ensures s[3] == OperationName(op)[0] && s[|s| - 1] == ')'
  {
    " - " + OperationName(op) + " (size: " + NatToString(size) + ")"
  }

  /**
   * A registered task. An encode task times `target.encode(data)`; a decode task
   * times `target.decode(payload)`, where `payload` is the target's `encoded`
   * field, which nothing changes between registration and the timing run.
   */
  datatype Task =
    | EncodeTask(taskName: string, target: Target, data: Sample)
    | DecodeTask(taskName: string, target: Target, payload: Option<Payload>)

  /** `benchmarkTargets.filter((lib) => !lib.skip)`. */
  function Runnable(ts: seq<Target>): (r: seq<Target>)
    reads ts
    ensures forall k :: 0 <= k < |r| ==> r[k] in ts && !r[k].skip
    ensures forall k :: 0 <= k < |ts| && !ts[k].skip ==> ts[k] in r
    ensures |r| <= |ts|
  {
    if ts == [] then [] else (if ts[0].skip then [] else [ts[0]]) + Runnable(ts[1..])
  }

  /**
   * The filter keeps the list order: filtering a concatenation is concatenating
   * the filtered parts, so a target ahead of another in the list stays ahead.
   */
  lemma {:induction false} RunnableAppend(a: seq<Target>, b: seq<Target>)
    ensures Runnable(a + b) == Runnable(a) + Runnable(b)
  {
    if a == [] {
      assert a + b == b;
    } else {
      assert (a + b)[1..] == a[1..] + b;
      RunnableAppend(a[1..], b);
    }
  }

  /**
   * The registration loop: for each runnable target, in order, an Encode task and
   * then a Decode task that uses the target's stored payload.
   */
  method RegisterTasks(runnable: seq<Target>, data: Sample, size: nat) returns (tasks: seq<Task>)
    ensures |tasks| == 2 * |runnable|
    ensures forall k :: 0 <= k < |runnable| ==>
      tasks[2 * k] == EncodeTask(Label(runnable[k].name, Encode, size), runnable[k], data) &&
      tasks[2 * k + 1] == DecodeTask(Label(runnable[k].name, Decode, size), runnable[k], runnable[k].encoded)
  {
    tasks := [];
    for k := 0 to |runnable|
      invariant |tasks| == 2 * k
      invariant forall j :: 0 <= j < k ==>
        tasks[2 * j] == EncodeTask(Label(runnable[j].name, Encode, size), runnable[j], data) &&
        tasks[2 * j + 1] == DecodeTask(Label(runnable[j].name, Decode, size), runnable[j], runnable[j].encoded)
    {
      var lib := runnable[k];
      tasks := tasks + [EncodeTask(Label(lib.name, Encode, size), lib, data)];
      tasks := tasks + [DecodeTask(Label(lib.name, Decode, size), lib, lib.encoded)];
    }
  }

  /** Two concatenations with equally long tails are equal only part by part. */
  lemma AppendCancel(a: string, b: string, c: string, d: string)
    requires |b| == |d|
    ensures a + b == c + d ==> a == c && b == d
  {
    if a + b == c + d {
      assert a == (a + b)[..|a|];
      assert c == (c + d)[..|c|];
      assert b == (a + b)[|a|..];
      assert d == (c + d)[|c|..];
    }
  }

  /** Within one tier, a label determines the target name and the operation. */
  lemma LabelInjective(name1: string, op1: Operation, name2: string, op2: Operation, size: nat)
    ensures Label(name1, op1, size) == Label(name2, op2, size) ==> name1 == name2 && op1 == op2
  {
    var rest1, rest2 := LabelSuffix(op1, size), LabelSuffix(op2, size);
    assert |rest1| == |rest2|;
    AppendCancel(name1, rest1, name2, rest2);
    assert rest1[3] == OperationName(op1)[0];
    assert rest2[3] == OperationName(op2)[0];
  }
}
