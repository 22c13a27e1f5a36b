# Schemaless serialization benchmark: workload and verification oracle

This project models the core of a Node.js benchmark script, `bench.mjs`. The
script compares serialization libraries (JSON, YAML, TOML, MessagePack,
protobuf) on one record shape. The model covers the two parts of the script
that decide what gets timed.

- **The workload generator** `createSampleData(size)`. It builds one record
  with fixed scalar fields, an `array` of `size` items and an `object` with the
  keys `key-0` … `key-(size-1)`. Each item's `id`, `name`, `nested.a` and
  `nested.b` come from its index. Its `value` is random.
  - Module `Workload`, with `Decimal` for the rendering of `${i}`.
  - The loop is modelled by the method `CreateSampleData`. That method is
    proved equal to the recursive specification `SampleData`, and the lemmas
    are stated about `SampleData`.
- **The verification oracle and the size loop** of `main`. For each size in
  `[10, 100]`, every target runs encode and then decode. The script then asserts
  two things: the decoded value is truthy, and its `string` property is strictly
  equal to the sample's text. It then prints the payload size, and stores the
  payload in `lib.encoded`. A throw anywhere in that block sets `lib.skip = true`,
  and nothing ever clears it. The runnable targets are the list filtered on
  `!lib.skip`. Each runnable target registers an Encode task and then a Decode
  task.
  - Module `Adapter`: the class `Target` with its mutable `skip` and `encoded`.
  - Module `Tasks`: the filter and the registration loop.
  - Module `Orchestrator`: one tier and the loop over the tiers.

The run is described by its history. `Orchestrator.Recorded` states it:

- after the tiers so far, a target is skipped exactly when it was skipped
  before the run, or it failed at one of those tiers;
- `encoded` holds the payload of the last tier the target passed, or its value
  from before the run (`LastPayload`).

Each tier's task list is the Encode/Decode pair of every survivor, in list
order. A survivor is a target that was not skipped before the run and that
passed at every tier so far. So a target that fails at size 10 gets no task
at size 100, even when it passes at size 100.

The script's oracle is weak: it accepts a decoded value when it is truthy and
its `string` property equals the sample's; the rest of the record is not
compared. `Adapter.RoundTripsText` is that rule, together with the
size-report condition below. When an encoder returns an empty string, the size
report `(encoded.length || encoded.byteLength).toString()` throws inside the
`try` block, because a string has no `byteLength`, so that target is skipped
too. This is `Failure.SizeNotPrintable`.

## Model

| member | source | states |
|---|---|---|
| Decimal.NatToString | bench.mjs:53 | the rendering of `${i}` is a non-empty string of digits; it has one digit exactly when i < 10, and starts with '0' exactly when i = 0 |
| Decimal.DigitsValueOfNatToString | bench.mjs:53 | reading the rendered digits back gives the index that was rendered |
| Decimal.NatToStringInjective | bench.mjs:60 | different indices render as different strings |
| Workload.CreateSampleData | bench.mjs:38-72 | the generator's loop builds exactly the record `SampleData(size, draws, now)`, whose array and object have `size` entries each |
| Workload.SampleArrayShape | bench.mjs:50-59 | after n iterations the array has n entries, and entry i is the item for index i (id i, name "item-i", nested.a 2i, nested.b "nested-i"), whose value is the random draw consumed for it |
| Workload.KeyInjective | bench.mjs:60 | "key-i" and "key-j" are the same key only when i = j, so no iteration overwrites an earlier entry |
| Workload.SampleObjectKeys | bench.mjs:60-68 | after n iterations the object's keys are exactly "key-0" … "key-(n-1)" |
| Workload.SampleObjectAt | bench.mjs:60-68 | entry "key-i" is present and is the item for index i, with the draw consumed for it |
| Workload.SampleObjectShape | bench.mjs:60-68 | the object's key set and every entry together |
| Workload.KeySetSize | bench.mjs:60 | the n keys "key-0" … "key-(n-1)" are n distinct keys |
| Workload.SampleObjectSize | bench.mjs:60-68 | the object has exactly n entries |
| Workload.ArrayAndObjectAgree | bench.mjs:51-68 | array entry i and object entry "key-i" agree on every field except their separately drawn random `value` |
| Workload.StableArrayShape | bench.mjs:50-59 | the array's shape, with the random values blanked out, does not depend on the draws |
| Workload.StableObjectShape | bench.mjs:60-68 | the object's shape, with the random values blanked out, does not depend on the draws |
| Workload.StableShape | bench.mjs:38-72 | two records of the same size are equal once the fields taken from Math.random and Date.now are blanked out |
| Workload.SampleScalars | bench.mjs:39-48 | `string` is the fixed text, `boolean` is true and `date` is the clock reading; with draws in [0, 1), `integer` lies in [-1000000, 0] and `number` in [0, 1000π); for size 0 both containers are empty |
| Adapter.ReportedSize | bench.mjs:182-184 | the printed size is a byte array's length, or a non-empty string's length (in characters); for the empty string there is none (the report throws) |
| Adapter.SizePrintable | bench.mjs:182-184 | the size report runs for every payload except the empty string |
| Adapter.Verify | bench.mjs:170-192 | the block succeeds exactly when encoding returns a payload whose size can be printed and which decodes to a truthy value with `string` equal to the sample's; on success the payload is the encoder's result; otherwise the failure is the first check that fails, in source order: encode threw (with its message), decode threw (with its message), falsy result, `string` mismatch, or an empty-string payload that otherwise round-trips |
| Adapter.Target.constructor | bench.mjs:113-159 | a target entry has its name, encoder and decoder, no `skip` and no `encoded` |
| Adapter.Target.PayloadFor | bench.mjs:171 | the payload a passing target verified with is what its encoder returns |
| Adapter.Target.VerifyWith | bench.mjs:170-192 | one iteration of the loop: `skip` becomes set when it was set before or the check fails, never cleared; `encoded` is overwritten with the payload on success and kept on failure |
| Adapter.TextRoundTripPasses | bench.mjs:171-187 | a target whose decoder gives back the sample's text from any payload but the empty string passes, whatever it does with the other fields, and its payload is stored |
| Adapter.SkipCauses | bench.mjs:170-192 | a target fails exactly when encode throws, decode throws, the decoded value is falsy, its `string` differs, or the size report throws |
| Tasks.Runnable | bench.mjs:198 | every kept target is in the list and not skipped; every target of the list that is not skipped is kept |
| Tasks.RunnableAppend | bench.mjs:198 | the filter keeps the list order: filtering a concatenation concatenates the filtered parts |
| Tasks.RegisterTasks | bench.mjs:200-207 | two tasks per runnable target, in order: at 2k the Encode task on the sample, at 2k+1 the Decode task on the target's stored `encoded`, labelled "<name> - Encode (size: n)" and "<name> - Decode (size: n)" |
| Tasks.Label | bench.mjs:201-204 | a label is as long as the target name plus 18 fixed characters and the size's digits, and carries its operation's initial right after the name and " - " |
| Tasks.LabelSuffix | bench.mjs:201-204 | " - Encode (size: n)" and " - Decode (size: n)" have the same length, differ at their fourth character, and end in ')' |
| Tasks.LabelInjective | bench.mjs:201-204 | within one size, a task label determines the target name and the operation |
| Orchestrator.Survivors | bench.mjs:166-198 | the targets eligible after the given tiers are exactly those not skipped before the run that passed at every one of them |
| Orchestrator.TierTasks | bench.mjs:200-207 | a tier has two tasks per live target |
| Orchestrator.TierTasksAt | bench.mjs:200-207 | Encode at even and Decode at odd positions, target by target in list order, the Decode task on the payload verified at this tier |
| Orchestrator.VerifyTier | bench.mjs:169-193 | the verification loop updates every target, skipped or not, exactly as one VerifyWith each |
| Orchestrator.RunTier | bench.mjs:166-207 | one size: if `skip` and `encoded` record the history before, they record it with this tier added after, and the tasks are those of the survivors of all tiers so far |
| Orchestrator.RegisteredAreTierTasks | bench.mjs:200-207 | when every runnable target holds the payload it verified with, registration builds exactly the tier's task list |
| Orchestrator.RunnableIsSurvivors | bench.mjs:191-198 | when `skip` records exactly the failures so far, the filter yields the survivors |
| Orchestrator.Run | bench.mjs:163-213 | after both sizes, `skip` and `encoded` record the history of the two tiers from the state before the run, and the tier task lists are those of the survivors at 10 and at 100 |
| Orchestrator.TwoTiers | bench.mjs:166-192 | after sizes 10 and 100 a target has passed all tiers exactly when it passed both; its payload is that of size 100 if it passed there, else that of size 10, else the earlier one |
| Orchestrator.AfterTwoTiers | bench.mjs:163-193 | what the run leaves on each target: skipped when skipped before or failing at 10 or at 100; `encoded` from size 100 if it passed there, else from size 10, else unchanged |
| Orchestrator.TwoTierSchedule | bench.mjs:166-207 | the schedule is the tasks of the targets passing at 10, then of those passing at both 10 and 100 |
| Orchestrator.AfterTier | bench.mjs:169-198 | one more verification pass extends the recorded history by its tier, and the filter then yields that history's survivors |
| Orchestrator.ExtendTiers | bench.mjs:169-192 | one more tier adds one more check to pass, and a success replaces the payload |
| Orchestrator.TierLabelsDistinct | bench.mjs:200-207 | with distinct target names, the tasks of one size have distinct labels, so a registry keyed by label keeps every task |
| Orchestrator.FailureIsPermanent | bench.mjs:169-198 | a target that fails at some tier is not eligible at any later tier, however the later tiers go |

## Left out

- The timing runs and their statistics (`bench.run`, `bench.table`): the model stops at the task list each tier registers.
- The concrete libraries and the protobuf schema and its mapping of the record: `encode` and `decode` are arbitrary functions that return or throw.
- Math.random and Date.now: they are parameters, the draws in the order the generator consumes them, and the clock reading. JavaScript doubles are modelled as reals, so rounding in `Math.PI * 1000 * r` and `Math.floor(r * -1000000)` is not modelled.
- Console output, except the one piece that can throw inside the `try` block: the size report on an empty string.
- Adapter.ReportedSize: the script prints a string's length in UTF-16 code units, while the model counts characters (code points), so the two differ for text outside the Basic Multilingual Plane; they agree on whether the string is empty, which is all the verification path depends on.
- Sizes and indices are small: JavaScript's array-length limit (`push` throws past 2^32−1 entries), exact integers only up to 2^53 (`i++` stops advancing there) and the exponent form of `${i}` from 1e21 are not modelled; `CreateSampleData` and `NatToString` are total on every natural number, and the script uses sizes 10 and 100.
- The error value caught: the model records only that a throw happened and its message.
- Encoders and decoders are assumed to throw objects with a `message`. A `throw null` or `throw undefined` makes the `catch` block's `error.message` itself throw, so the script's run aborts (to `main().catch`) instead of skipping the target; the model does not capture that abort.
- `main().catch(console.error)` and the asynchronous `await`: nothing after the loop is modelled.
- The module-level `sampleData10` and `sampleData100` are parameters of `Orchestrator.Run`; both are built by `Workload.CreateSampleData`.
- The timing library's registry is modelled as a list in registration order. `Orchestrator.TierLabelsDistinct` shows it loses nothing when target names are distinct.
- Decode tasks hold the `encoded` value from registration. The script reads `lib.encoded` when the task runs, but nothing writes it between registration and the end of the tier's run.
- The JavaScript fields `string`, `array` and `object` are named `str`, `arr` and `obj`, because the original names are reserved words in Dafny.
