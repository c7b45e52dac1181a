/**
 * The per-table driver `convert_table` and the five result streams it
 * keeps for one table (tools/datasets/convert_datasets.py): linearise the
 * rows, materialise one request per row, check which indices are pending,
 * and write each (request, response-or-null) pair the executor yields
 * into its slot.
 *
 * The streams live in memory; each write stands for the save that follows
 * it in the source.
 */
module Store {
  import opened Wrappers
  import opened Requests
  import opened Linearize
  import opened Pending
  import opened Executor

  /**
   * How `convert_table` ends: normally, with the `UnboundLocalError` for
   * `prompt`, or with the event that stopped the write loop early (a
   * re-raised error, or the outcomes running out).
   */
  datatype Status = Done | PromptUnbound | Stopped(event: Event)

  /**
   * Where the write loop started: the whole run it performs (`Drive` from
   * the stream's state), the delays and outcome count the stream had
   * recorded, and the three result streams before the first write.
   */
  datatype LoopStart = LoopStart(run: Trace, sleeps: seq<nat>, served: nat, raw: seq<Option<Response>>,
                                 processed: seq<Option<string>>, backInput: seq<Option<Request>>)

  /** `llm_results`: the five streams of one table, as loaded (absent streams are empty). */
  class LlmResults {
    var linearization: seq<string>
    var input: seq<Request>
    var raw: seq<Option<Response>>
    var processed: seq<Option<string>>
    var backInput: seq<Option<Request>>

    constructor (linearization: seq<string>, input: seq<Request>, raw: seq<Option<Response>>,
                 processed: seq<Option<string>>, backInput: seq<Option<Request>>)
      ensures this.linearization == linearization && this.input == input
      ensures this.raw == raw && this.processed == processed && this.backInput == backInput
    {
      this.linearization := linearization;
      this.input := input;
      this.raw := raw;
      this.processed := processed;
      this.backInput := backInput;
    }

    /**
     * `check_llm_results`: pad the three result streams with nulls up to
     * the number of requests, never truncating, then return the pending
     * indices in increasing order.
     */
    method CheckLlmResults() returns (inds: seq<nat>)
      modifies this
      ensures linearization == old(linearization) && input == old(input)
      ensures raw == Pad(old(raw), |input|)
      ensures processed == Pad(old(processed), |input|)
      ensures backInput == Pad(old(backInput), |input|)
      ensures Padded(input, raw, processed, backInput)
      ensures inds == PendingIndices(input, raw, processed, backInput)
    {
      raw := Pad(raw, |input|);
      processed := Pad(processed, |input|);
      backInput := Pad(backInput, |input|);
      inds := CollectPending(input, raw, processed, backInput);
    }

    /**
     * The materialisation loop: for each linearisation, overwrite the last
     * message of the request template with the rendered prompt and append
     * a copy to `input`. Existing requests are kept, not replaced.
     */
    method AppendInputs(chat: Request, prompt: string, render: (string, string) -> string)
      modifies this
      ensures linearization == old(linearization)
      ensures raw == old(raw) && processed == old(processed) && backInput == old(backInput)
      ensures input == old(input) + Materialise(chat, prompt, render, linearization)
    {
      input := MaterialiseOnto(input, chat, prompt, render, linearization);
    }

    /**
     * One pair of the write loop: slot `ind` of `raw` and `backInput` is
     * overwritten; `processed[ind]` only when the response is non-null.
     */
    method WriteSlot(ind: nat, req: Request, result: Option<Response>)
      requires ind < |raw| && ind < |processed| && ind < |backInput|
      modifies this
      ensures linearization == old(linearization) && input == old(input)
      ensures raw == old(raw)[ind := result]
      ensures processed == if result.Some? then old(processed)[ind := result.value.content] else old(processed)
      ensures backInput == old(backInput)[ind := Some(req)]
    {
      raw := raw[ind := result];
      if result.Some? {
        processed := processed[ind := result.value.content];
      }
      backInput := backInput[ind := Some(req)];
    }

    /**
     * One iteration of the write loop: resume the executor once and, if it
     * yields a pair, write it into slot `inds[j]`. `start` places the
     * loop in the whole run (see `Progress`); `pairs'` is the new list of
     * pairs drawn.
     */
    method WriteNext(inds: seq<nat>, j: nat, stream: CallStream, ghost start: LoopStart,
                     ghost pairs: seq<(Request, Option<Response>)>)
      returns (e: Event, ghost pairs': seq<(Request, Option<Response>)>)
      requires stream.Valid() && Increasing(inds) && j == |pairs| < |inds|
      requires Progress(start.run, start.sleeps, start.served, pairs, stream.State(), stream.Remaining(), |inds| - j,
                        stream.sleeps, stream.served)
      requires Written(raw, processed, backInput, start.raw, start.processed, start.backInput, inds, pairs)
      requires inds[j] < |raw| && inds[j] < |processed| && inds[j] < |backInput|
      modifies this, stream
      ensures stream.Valid() && linearization == old(linearization) && input == old(input)
      ensures e.Yielded? ==>
        && |pairs'| == j + 1
        && Progress(start.run, start.sleeps, start.served, pairs', stream.State(), stream.Remaining(), |inds| - (j + 1),
                    stream.sleeps, stream.served)
        && Written(raw, processed, backInput, start.raw, start.processed, start.backInput, inds, pairs')
      ensures !e.Yielded? ==>
        && pairs' == pairs == start.run.pairs && start.run.stop == Some(e) && start.run.gen == stream.State()
        && start.sleeps + start.run.sleeps == stream.sleeps && start.served + start.run.used == stream.served
        && raw == old(raw) && processed == old(processed) && backInput == old(backInput)
    {
      ghost var g, outs := stream.State(), stream.Remaining();
      ghost var p := Pull(g, outs);
      e := stream.Next();
      pairs' := pairs;
      assert stream.Remaining() == outs[p.used..];
      if e.Yielded? {
        pairs' := pairs + [(e.req, e.result)];
        ProgressStep(start.run, start.sleeps, start.served, pairs, g, outs, |inds| - j, old(stream.sleeps), old(stream.served));
        WrittenStep(raw, processed, backInput, start.raw, start.processed, start.backInput, inds, pairs, e.req, e.result);
        WriteSlot(inds[j], e.req, e.result);
      } else {
        ProgressStop(start.run, start.sleeps, start.served, pairs, g, outs, |inds| - j, old(stream.sleeps), old(stream.served));
      }
    }

    /**
     * The write loop `for ind, (input, result) in zip(inds, generator)`:
     * draws at most `|inds|` pairs from the executor and writes the j-th
     * pair into slot `inds[j]`. Returns the event that stopped the loop
     * early, if any. Lengths and every slot not written are unchanged.
     */
    method WriteResults(inds: seq<nat>, stream: CallStream)
      returns (stop: Option<Event>, ghost pairs: seq<(Request, Option<Response>)>)
      requires stream.Valid() && Increasing(inds)
      requires forall j :: 0 <= j < |inds| ==> inds[j] < |raw| && inds[j] < |processed| && inds[j] < |backInput|
      modifies this, stream
      ensures stream.Valid()
      ensures var t := Drive(old(stream.State()), old(stream.Remaining()), |inds|);
        && pairs == t.pairs && stop == t.stop && stream.State() == t.gen
        && stream.served == old(stream.served) + t.used && stream.sleeps == old(stream.sleeps) + t.sleeps
      ensures linearization == old(linearization) && input == old(input)
      ensures Written(raw, processed, backInput, old(raw), old(processed), old(backInput), inds, pairs)
    {
      ghost var lin0, input0 := linearization, input;
      ghost var start := LoopStart(Drive(stream.State(), stream.Remaining(), |inds|), stream.sleeps, stream.served,
                                   raw, processed, backInput);
      pairs, stop := [], None;
      var j := 0;
      while j < |inds|
        invariant 0 <= j <= |inds| && |pairs| == j && stream.Valid()
        invariant Progress(start.run, start.sleeps, start.served, pairs, stream.State(), stream.Remaining(), |inds| - j,
                           stream.sleeps, stream.served)
        invariant linearization == lin0 && input == input0
        invariant Written(raw, processed, backInput, start.raw, start.processed, start.backInput, inds, pairs)
      {
        var e;
        e, pairs := WriteNext(inds, j, stream, start, pairs);
        if !e.Yielded? {
          stop := Some(e);
          return;
        }
        j := j + 1;
      }
      ProgressEnd(start.run, start.sleeps, start.served, pairs, stream.State(), stream.Remaining(), stream.sleeps, stream.served);
    }
    /**
     * The preparation half of `convert_table`: linearise the rows unless a
     * linearisation per row is cached (reading the prompt from the last
     * message of `chat`), then materialise the requests unless a request
     * per row is cached. Materialising fails, changing nothing, when the
     * linearisations were cached (so no prompt was read) and there is at
     * least one to render; `bound` is false exactly then.
     */
    method Prepare(table: Table, chat: Request, render: (string, string) -> string) returns (bound: bool)
      requires Rectangular(table)
      modifies this
      ensures !bound <==> |old(linearization)| == |table.rows| && |old(input)| != |table.rows| && |table.rows| > 0
      ensures raw == old(raw) && processed == old(processed) && backInput == old(backInput)
      ensures !bound ==> linearization == old(linearization) && input == old(input)
      ensures bound ==>
        && linearization == (if |old(linearization)| != |table.rows| then LinearizeTable(table, LastContent(chat))
                             else old(linearization))
        && input == (if |old(input)| != |table.rows| then old(input) + Materialise(chat, LastContent(chat), render, linearization)
                     else old(input))
    {
      var n := |table.rows|;
      var prompt: Option<string> := None;
      if |linearization| != n {
        prompt := Some(LastContent(chat));
        linearization := LinearizeTable(table, prompt.value);
      }
      if |input| != n {
        if prompt.None? && |linearization| > 0 {
          return false;
        }
        if prompt.Some? {
          AppendInputs(chat, prompt.value, render);
        }
      }
      return true;
    }

    /**
     * The calling half of `convert_table`: find the pending indices, send
     * their requests through the executor (over the outcomes `service`)
     * and write each pair back. `delays` are the backoff delays and
     * `calls` the number of service calls made; with nothing pending no
     * call is made. While no response is null, every slot that received a
     * response with non-null content is resolved for the next run.
     */
    method Resume(service: seq<Outcome>)
      returns (stop: Option<Event>, inds: seq<nat>, delays: seq<nat>, calls: nat,
               ghost pairs: seq<(Request, Option<Response>)>)
      modifies this
      ensures linearization == old(linearization) && input == old(input)
      ensures inds == PendingIndices(input, Pad(old(raw), |input|), Pad(old(processed), |input|), Pad(old(backInput), |input|))
      ensures Written(raw, processed, backInput, Pad(old(raw), |input|), Pad(old(processed), |input|), Pad(old(backInput), |input|),
                      inds, pairs)
      ensures var t := Drive(Gen(Pick(input, inds), 0, 0), service, |inds|);
        pairs == t.pairs && stop == t.stop && delays == t.sleeps && calls == t.used
      ensures inds == [] ==> calls == 0 && delays == [] && pairs == []
      ensures AllAnswered(pairs) ==>
        && Padded(input, raw, processed, backInput)
        && forall j :: 0 <= j < |pairs| && pairs[j].1.value.content.Some? ==>
             !IsPending(input, raw, processed, backInput, inds[j])
      ensures stop == None && AllResolved(pairs) ==>
        Padded(input, raw, processed, backInput) && PendingIndices(input, raw, processed, backInput) == []
    {
      ghost var raw0, processed0, backInput0 := Pad(raw, |input|), Pad(processed, |input|), Pad(backInput, |input|);
      inds := CheckLlmResults();
      var stream := new CallStream(Pick(input, inds), service);
      stop, pairs := WriteResults(inds, stream);
      delays, calls := stream.sleeps, stream.served;
      if AllAnswered(pairs) {
        DriveAligned(Gen(Pick(input, inds), 0, 0), service, |inds|);
        ResolvedAfterRun(input, raw, processed, backInput, raw0, processed0, backInput0, inds, pairs);
      }
      if stop == None && AllResolved(pairs) {
        DriveCompletes(Gen(Pick(input, inds), 0, 0), service, |inds|);
        NothingPendingAfterRun(input, raw, processed, backInput, raw0, processed0, backInput0, inds, pairs);
      }
    }

    /**
     * Resumption is idempotent: running the calling half again after a
     * run that no event stopped and in which every response and content
     * was non-null finds nothing pending and makes no call.
     */
    method ResumeTwice(service: seq<Outcome>, again: seq<Outcome>)
      returns (stop: Option<Event>, calls: nat, ghost pairs: seq<(Request, Option<Response>)>, calls2: nat)
      modifies this
      ensures stop == None && AllResolved(pairs) ==> calls2 == 0
    {
      var inds, delays, inds2, delays2, stop2;
      ghost var pairs2;
      stop, inds, delays, calls, pairs := Resume(service);
      if stop == None && AllResolved(pairs) {
        PadFull(raw, |input|);
        PadFull(processed, |input|);
        PadFull(backInput, |input|);
      }
      stop2, inds2, delays2, calls2, pairs2 := Resume(again);
    }

    /**
     * `convert_table` on the streams loaded for one table: `Prepare`, then
     * `Resume` unless preparing failed.
     */
    method ConvertTable(table: Table, chat: Request, render: (string, string) -> string, service: seq<Outcome>)
      returns (status: Status, inds: seq<nat>, delays: seq<nat>, calls: nat, ghost pairs: seq<(Request, Option<Response>)>)
      requires Rectangular(table)
      modifies this
      ensures status.PromptUnbound? <==>
        |old(linearization)| == |table.rows| && |old(input)| != |table.rows| && |table.rows| > 0
      ensures status.PromptUnbound? ==>
        && linearization == old(linearization) && input == old(input)
        && raw == old(raw) && processed == old(processed) && backInput == old(backInput)
        && inds == [] && delays == [] && calls == 0 && pairs == []
      ensures !status.PromptUnbound? ==>
        && linearization == (if |old(linearization)| != |table.rows| then LinearizeTable(table, LastContent(chat))
                             else old(linearization))
        && input == (if |old(input)| != |table.rows| then old(input) + Materialise(chat, LastContent(chat), render, linearization)
                     else old(input))
        && inds == PendingIndices(input, Pad(old(raw), |input|), Pad(old(processed), |input|), Pad(old(backInput), |input|))
        && Written(raw, processed, backInput, Pad(old(raw), |input|), Pad(old(processed), |input|), Pad(old(backInput), |input|),
                   inds, pairs)
        && var t := Drive(Gen(Pick(input, inds), 0, 0), service, |inds|);
           && pairs == t.pairs && delays == t.sleeps && calls == t.used
           && status == if t.stop.Some? then Stopped(t.stop.value) else Done
    {
      var bound := Prepare(table, chat, render);
      if !bound {
        return PromptUnbound, [], [], 0, [];
      }
      var stop;
      stop, inds, delays, calls, pairs := Resume(service);
      status := if stop.Some? then Stopped(stop.value) else Done;
    }
  }

  /**
   * The body of the materialisation loop: the template's last message
   * content is overwritten in place for each linearisation and a copy is
   * appended to `input`.
   */
  method MaterialiseOnto(input: seq<Request>, chat: Request, prompt: string, render: (string, string) -> string,
                         lins: seq<string>)
    returns (appended: seq<Request>)
    ensures appended == input + Materialise(chat, prompt, render, lins)
  {
    ghost var reqs := Materialise(chat, prompt, render, lins);
    appended := input;
    var kwargs := chat;
    for k := 0 to |lins|
      invariant |appended| == |input| + k && appended[..|input|] == input
      invariant forall i :: 0 <= i < k ==> appended[|input| + i] == reqs[i]
      invariant kwargs == if k == 0 then chat else reqs[k - 1]
    {
      if k > 0 {
        WithLastContentTwice(chat, render(prompt, lins[k - 1]), render(prompt, lins[k]));
      }
      kwargs := WithLastContent(kwargs, render(prompt, lins[k]));
      appended := appended + [kwargs];
    }
  }

  /** The pending requests `[llm_results["input"][ind] for ind in inds]`. */
  function Pick(input: seq<Request>, inds: seq<nat>): (reqs: seq<Request>)
    requires forall j :: 0 <= j < |inds| ==> inds[j] < |input|
    ensures |reqs| == |inds| && forall j :: 0 <= j < |inds| ==> reqs[j] == input[inds[j]]
  {
    seq(|inds|, j requires 0 <= j < |inds| => input[inds[j]])
  }

  /**
   * Resumption: once the write loop has written pairs that each carry the
   * request of their own slot (the alignment the executor keeps while no
   * response is null), every slot that received a response with non-null
   * content is no longer pending, even after a model upgrade.
   */
  lemma ResolvedAfterRun(input: seq<Request>, raw: seq<Option<Response>>, processed: seq<Option<string>>,
                         backInput: seq<Option<Request>>, raw0: seq<Option<Response>>,
                         processed0: seq<Option<string>>, backInput0: seq<Option<Request>>,
                         inds: seq<nat>, pairs: seq<(Request, Option<Response>)>)
    requires Padded(input, raw0, processed0, backInput0)
    requires Written(raw, processed, backInput, raw0, processed0, backInput0, inds, pairs)
    requires forall j :: 0 <= j < |inds| ==> inds[j] < |input|
    requires AllAnswered(pairs) && Aligned(pairs, Pick(input, inds), 0)
    ensures Padded(input, raw, processed, backInput)
    ensures forall j :: 0 <= j < |pairs| && pairs[j].1.value.content.Some? ==>
      !IsPending(input, raw, processed, backInput, inds[j])
  {
    forall j | 0 <= j < |pairs| && pairs[j].1.value.content.Some?
      ensures !IsPending(input, raw, processed, backInput, inds[j])
    {
      assert Pick(input, inds)[j] == input[inds[j]];
      assert backInput[inds[j]].value.messages == input[inds[j]].messages;
    }
  }

  /**
   * Null is not terminal: every slot the write loop filled with a null
   * response is pending again on the next check, and its `processed`
   * entry is left as it was.
   */
  lemma NullRequeuedAfterRun(input: seq<Request>, raw: seq<Option<Response>>, processed: seq<Option<string>>,
                             backInput: seq<Option<Request>>, raw0: seq<Option<Response>>,
                             processed0: seq<Option<string>>, backInput0: seq<Option<Request>>,
                             inds: seq<nat>, pairs: seq<(Request, Option<Response>)>, j: nat)
    requires Padded(input, raw0, processed0, backInput0)
    requires Written(raw, processed, backInput, raw0, processed0, backInput0, inds, pairs)
    requires j < |pairs| && inds[j] < |input| && pairs[j].1 == None
    ensures Padded(input, raw, processed, backInput)
    ensures IsPending(input, raw, processed, backInput, inds[j])
    ensures processed[inds[j]] == processed0[inds[j]]
  {
  }

  /**
   * The skip path misfiles: under repeated context-length errors, the
   * write loop stores the first pending request, widened to the larger
   * model if it was on the smaller one, with a null response in every
   * pending slot; `processed` keeps whatever it held there.
   */
  lemma SkipFillsEverySlot(input: seq<Request>, raw: seq<Option<Response>>, processed: seq<Option<string>>,
                           backInput: seq<Option<Request>>, raw0: seq<Option<Response>>,
                           processed0: seq<Option<string>>, backInput0: seq<Option<Request>>,
                           inds: seq<nat>, service: seq<Outcome>, pairs: seq<(Request, Option<Response>)>)
    requires forall j :: 0 <= j < |inds| ==> inds[j] < |input|
    requires |inds| > 0 && |inds| + (if input[inds[0]].model == Turbo then 1 else 0) <= |service|
    requires forall k :: 0 <= k < |service| ==> service[k].ContextExceeded?
    requires pairs == Drive(Gen(Pick(input, inds), 0, 0), service, |inds|).pairs
    requires Written(raw, processed, backInput, raw0, processed0, backInput0, inds, pairs)
    ensures Drive(Gen(Pick(input, inds), 0, 0), service, |inds|).stop == None && |pairs| == |inds|
    ensures forall j :: 0 <= j < |inds| ==>
      && raw[inds[j]] == None && backInput[inds[j]] == Some(Widened(input[inds[0]]))
      && processed[inds[j]] == processed0[inds[j]]
  {
    DriveRepeatsSkip(Gen(Pick(input, inds), 0, 0), service, |inds|);
    assert forall j :: 0 <= j < |pairs| ==> pairs[j] == (Widened(input[inds[0]]), None);
  }

  /** Every pair carries a non-null response whose content is non-null. */
  ghost predicate AllResolved(pairs: seq<(Request, Option<Response>)>)
  {
    forall j :: 0 <= j < |pairs| ==> pairs[j].1.Some? && pairs[j].1.value.content.Some?
  }

  /**
   * Idempotence: when the write loop filled every pending slot with a pair
   * aligned with it whose response and content are non-null, nothing is
   * pending any more, so the next run calls nothing.
   */
  lemma NothingPendingAfterRun(input: seq<Request>, raw: seq<Option<Response>>, processed: seq<Option<string>>,
                               backInput: seq<Option<Request>>, raw0: seq<Option<Response>>,
                               processed0: seq<Option<string>>, backInput0: seq<Option<Request>>,
                               inds: seq<nat>, pairs: seq<(Request, Option<Response>)>)
    requires Padded(input, raw0, processed0, backInput0)
    requires inds == PendingIndices(input, raw0, processed0, backInput0)
    requires Written(raw, processed, backInput, raw0, processed0, backInput0, inds, pairs)
    requires |pairs| == |inds| && AllResolved(pairs) && Aligned(pairs, Pick(input, inds), 0)
    ensures Padded(input, raw, processed, backInput)
    ensures PendingIndices(input, raw, processed, backInput) == []
  {
    ResolvedAfterRun(input, raw, processed, backInput, raw0, processed0, backInput0, inds, pairs);
    forall i | 0 <= i < |input|
      ensures !IsPending(input, raw, processed, backInput, i)
    {
      if i in inds {
        var j :| 0 <= j < |inds| && inds[j] == i;
        assert pairs[j].1.value.content.Some?;
      } else {
        assert inds[..|pairs|] == inds;
        assert raw[i] == raw0[i] && processed[i] == processed0[i] && backInput[i] == backInput0[i];
      }
    }
    NothingPending(input, raw, processed, backInput);
  }

  /** `s` has the length of `s0` and agrees with it outside the indices in `written`. */
  ghost predicate Untouched<T>(s: seq<T>, s0: seq<T>, written: seq<nat>)
  {
    |s| == |s0| && forall i :: 0 <= i < |s| && i !in written ==> s[i] == s0[i]
  }

  /**
   * The streams after the first `|pairs|` writes of the write loop: the
   * j-th pair is in slot `inds[j]` (its response in `raw`, its request in
   * `backInput`, the response content in `processed` unless the response
   * is null), and every other slot is as it was.
   */
  ghost predicate Written(raw: seq<Option<Response>>, processed: seq<Option<string>>, backInput: seq<Option<Request>>,
                          raw0: seq<Option<Response>>, processed0: seq<Option<string>>, backInput0: seq<Option<Request>>,
                          inds: seq<nat>, pairs: seq<(Request, Option<Response>)>)
  {
    && |pairs| <= |inds|
    && Untouched(raw, raw0, inds[..|pairs|])
    && Untouched(processed, processed0, inds[..|pairs|])
    && Untouched(backInput, backInput0, inds[..|pairs|])
    && forall j :: 0 <= j < |pairs| ==>
      && inds[j] < |raw| && inds[j] < |processed| && inds[j] < |backInput|
      && raw[inds[j]] == pairs[j].1
      && backInput[inds[j]] == Some(pairs[j].0)
      && processed[inds[j]] == if pairs[j].1.Some? then pairs[j].1.value.content else processed0[inds[j]]
  }

  lemma WrittenStep(raw: seq<Option<Response>>, processed: seq<Option<string>>, backInput: seq<Option<Request>>,
                    raw0: seq<Option<Response>>, processed0: seq<Option<string>>, backInput0: seq<Option<Request>>,
                    inds: seq<nat>, pairs: seq<(Request, Option<Response>)>, req: Request, result: Option<Response>)
    requires Written(raw, processed, backInput, raw0, processed0, backInput0, inds, pairs)
    requires Increasing(inds) && |pairs| < |inds|
    requires inds[|pairs|] < |raw| && inds[|pairs|] < |processed| && inds[|pairs|] < |backInput|
    ensures var ind := inds[|pairs|];
      Written(raw[ind := result],
              if result.Some? then processed[ind := result.value.content] else processed,
              backInput[ind := Some(req)],
              raw0, processed0, backInput0, inds, pairs + [(req, result)])
  {
    var j, ind := |pairs|, inds[|pairs|];
    UntouchedStep(raw, raw0, inds, j, result);
    UntouchedStep(backInput, backInput0, inds, j, Some(req));
    if result.Some? {
      UntouchedStep(processed, processed0, inds, j, result.value.content);
    } else {
      UntouchedStep(processed, processed0, inds, j, processed[ind]);
      assert processed[ind := processed[ind]] == processed;
    }
  }

  /** Writing slot `inds[j]` extends the set of written slots by it. */
  lemma UntouchedStep<T>(s: seq<T>, s0: seq<T>, inds: seq<nat>, j: nat, x: T)
    requires j < |inds| && inds[j] < |s| && Untouched(s, s0, inds[..j])
    ensures Untouched(s[inds[j] := x], s0, inds[..j + 1])
  {
    assert inds[..j + 1] == inds[..j] + [inds[j]];
  }
}
