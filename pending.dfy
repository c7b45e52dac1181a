/**
 * The consistency check `check_llm_results`
 * (tools/datasets/convert_datasets.py): pad the result streams with nulls
 * up to the number of requests, then list the indices that still need a
 * remote call.
 */
module Pending {
  import opened Wrappers
  import opened Requests

  /** `s + [None] * (n - len(s))` when `s` is shorter than `n`; `s` otherwise. */
  function Pad<T>(s: seq<Option<T>>, n: nat): (r: seq<Option<T>>)
    ensures |r| == if |s| < n then n else |s|
    ensures r[..|s|] == s
    ensures forall i :: |s| <= i < |r| ==> r[i] == None
  {
    if |s| < n then s + seq(n - |s|, _ => None) else s
  }

  /** Every result stream has a slot for every request. */
  predicate Padded(input: seq<Request>, raw: seq<Option<Response>>,
                   processed: seq<Option<string>>, backInput: seq<Option<Request>>)
  {
    |input| <= |raw| && |input| <= |processed| && |input| <= |backInput|
  }

  /**
   * Index `i` still needs a call: one of its three result slots is null,
   * or the request recorded when it was sent no longer has the same final
   * message text as the freshly built request.
   */
  predicate IsPending(input: seq<Request>, raw: seq<Option<Response>>,
                      processed: seq<Option<string>>, backInput: seq<Option<Request>>, i: nat)
    requires Padded(input, raw, processed, backInput) && i < |input|
    ensures !IsPending(input, raw, processed, backInput, i) ==>
      && raw[i].Some? && processed[i].Some? && backInput[i].Some?
      && backInput[i].value.messages[|backInput[i].value.messages| - 1].content
         == input[i].messages[|input[i].messages| - 1].content
  {
    || raw[i].None?
    || processed[i].None?
    || backInput[i].None?
    || LastContent(backInput[i].value) != LastContent(input[i])
  }

  predicate Increasing(inds: seq<nat>)
  {
    forall i, j :: 0 <= i < j < |inds| ==> inds[i] < inds[j]
  }

  /**
   * The pending indices below `n`, in increasing order: strictly
   * increasing, all below `n`, and containing an index below `n` exactly
   * when it is pending.
   */
  function PendingBelow(input: seq<Request>, raw: seq<Option<Response>>,
                        processed: seq<Option<string>>, backInput: seq<Option<Request>>, n: nat): (inds: seq<nat>)
    requires Padded(input, raw, processed, backInput) && n <= |input|
    ensures Increasing(inds)
    ensures forall j :: 0 <= j < |inds| ==> inds[j] < n
    ensures forall i :: 0 <= i < n ==> (IsPending(input, raw, processed, backInput, i) <==> i in inds)
  {
    if n == 0 then []
    else
      var below := PendingBelow(input, raw, processed, backInput, n - 1);
      if IsPending(input, raw, processed, backInput, n - 1) then below + [n - 1] else below
  }

  /**
   * The indices `check_llm_results` returns: every pending index, each
   * once, in increasing order, and nothing else.
   */
  function PendingIndices(input: seq<Request>, raw: seq<Option<Response>>,
                          processed: seq<Option<string>>, backInput: seq<Option<Request>>): (inds: seq<nat>)
    requires Padded(input, raw, processed, backInput)
    ensures Increasing(inds)
    ensures forall j :: 0 <= j < |inds| ==> inds[j] < |input|
    ensures forall i :: 0 <= i < |input| ==> (i in inds <==> IsPending(input, raw, processed, backInput, i))
  {
    PendingBelow(input, raw, processed, backInput, |input|)
  }

  /** The pending list is empty exactly when no index is pending: the next run calls nothing. */
  lemma NothingPending(input: seq<Request>, raw: seq<Option<Response>>,
                       processed: seq<Option<string>>, backInput: seq<Option<Request>>)
    requires Padded(input, raw, processed, backInput)
    ensures PendingIndices(input, raw, processed, backInput) == []
        <==> forall i :: 0 <= i < |input| ==> !IsPending(input, raw, processed, backInput, i)
  {
    if forall i :: 0 <= i < |input| ==> !IsPending(input, raw, processed, backInput, i) {
      NoneBelow(input, raw, processed, backInput, |input|);
    }
  }

  lemma {:induction false} NoneBelow(input: seq<Request>, raw: seq<Option<Response>>,
                                     processed: seq<Option<string>>, backInput: seq<Option<Request>>, n: nat)
    requires Padded(input, raw, processed, backInput) && n <= |input|
    requires forall i :: 0 <= i < n ==> !IsPending(input, raw, processed, backInput, i)
    ensures PendingBelow(input, raw, processed, backInput, n) == []
    decreases n
  {
    if n > 0 {
      NoneBelow(input, raw, processed, backInput, n - 1);
    }
  }

  /** The loop at the end of `check_llm_results` computes the pending indices. */
  method CollectPending(input: seq<Request>, raw: seq<Option<Response>>,
                        processed: seq<Option<string>>, backInput: seq<Option<Request>>)
    returns (inds: seq<nat>)
    requires Padded(input, raw, processed, backInput)
    ensures inds == PendingIndices(input, raw, processed, backInput)
  {
    inds := [];
    for i := 0 to |input|
      invariant inds == PendingBelow(input, raw, processed, backInput, i)
    {
      if IsPending(input, raw, processed, backInput, i) {
        inds := inds + [i];
      }
    }
  }

  /** Padding a stream that already has `n` slots leaves it as it is. */
  lemma PadFull<T>(s: seq<Option<T>>, n: nat)
    requires n <= |s|
    ensures Pad(s, n) == s
  {
  }

  /**
   * Padding never loses data and always yields a slot per request: the
   * padded streams satisfy `Padded`, and every slot that padding appended
   * to any of the three streams is pending.
   */
  lemma PaddedSlotsPending(input: seq<Request>, raw: seq<Option<Response>>,
                           processed: seq<Option<string>>, backInput: seq<Option<Request>>, i: nat)
    requires (|raw| <= i || |processed| <= i || |backInput| <= i) && i < |input|
    ensures Padded(input, Pad(raw, |input|), Pad(processed, |input|), Pad(backInput, |input|))
    ensures IsPending(input, Pad(raw, |input|), Pad(processed, |input|), Pad(backInput, |input|), i)
  {
  }

  /**
   * A null raw result is not terminal: the slot is pending again on every
   * later check, whatever the other slots hold.
   */
  lemma NullResultStaysPending(input: seq<Request>, raw: seq<Option<Response>>,
                               processed: seq<Option<string>>, backInput: seq<Option<Request>>, i: nat)
    requires Padded(input, raw, processed, backInput) && i < |input|
    ensures IsPending(input, raw[i := None], processed, backInput, i)
  {
  }

  /**
   * Drift: a slot with a non-null result is re-queued exactly when the
   * request recorded at send time differs in final message text from the
   * current request.
   */
  lemma DriftRequeues(input: seq<Request>, raw: seq<Option<Response>>,
                          processed: seq<Option<string>>, backInput: seq<Option<Request>>, i: nat)
    requires Padded(input, raw, processed, backInput) && i < |input|
    requires raw[i].Some? && processed[i].Some? && backInput[i].Some?
    ensures IsPending(input, raw, processed, backInput, i)
        <==> LastContent(backInput[i].value) != LastContent(input[i])
  {
  }

  /**
   * Writing a non-null response with non-null content at `ind`, together
   * with a request whose final message text is that of the current
   * request, resolves `ind`.
   */
  lemma ResolvedAfterWrite(input: seq<Request>, raw: seq<Option<Response>>,
                           processed: seq<Option<string>>, backInput: seq<Option<Request>>,
                           ind: nat, req: Request, resp: Response)
    requires Padded(input, raw, processed, backInput) && ind < |input|
    requires resp.content.Some? && LastContent(req) == LastContent(input[ind])
    ensures !IsPending(input, raw[ind := Some(resp)], processed[ind := resp.content], backInput[ind := Some(req)], ind)
  {
  }
}
