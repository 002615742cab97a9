/** Properties of the `conversion` slice: what each reducer case changes and keeps, and what a
    trace of interleaved request lifecycles ends in. Completion events carry no request identity,
    so the last completion applied wins whatever order the requests were issued in. */
module ConversionLaws {
  import opened Api
  import opened ConversionSlice

  // ---------------------------------------------------------------------------------------------
  // Single reducer cases.

  /** Typing replaces the input and nothing else; in particular an error stays visible. */
  lemma SetPhpCodeOnlyInput(s: ConversionState, code: string)
    ensures Reduce(s, SetPhpCode(code)).current.phpCode == code
    ensures Reduce(s, SetPhpCode(code)).current.error == s.current.error
    ensures Reduce(s, SetPhpCode(code)) == s.(current := s.current.(phpCode := code))
  {
  }

  /** Reset restores the initial current conversion from any state, keeps the history, and is idempotent. */
  lemma ResetRestoresInitial(s: ConversionState)
    ensures Reduce(s, ResetConversion).current == InitialState.current
    ensures Reduce(s, ResetConversion).history == s.history
    ensures Reduce(Reduce(s, ResetConversion), ResetConversion) == Reduce(s, ResetConversion)
  {
  }

  /** Clearing errors touches only the two error fields and is idempotent. */
  lemma ClearErrorOnlyErrors(s: ConversionState)
    ensures Reduce(s, ClearError).current == s.current.(error := None)
    ensures Reduce(s, ClearError).history == s.history.(error := None)
    ensures Reduce(Reduce(s, ClearError), ClearError) == Reduce(s, ClearError)
  {
  }

  /** Pending marks the conversion as loading, clears its error and keeps input and output. */
  lemma ConvertPendingKeepsCode(s: ConversionState)
    ensures Reduce(s, ConvertPending).current.isLoading
    ensures Reduce(s, ConvertPending).current.error == None
    ensures Reduce(s, ConvertPending).current.phpCode == s.current.phpCode
    ensures Reduce(s, ConvertPending).current.nodeCode == s.current.nodeCode
  {
  }

  /** A rejected history fetch keeps the stale page visible and reports the message. */
  lemma HistoryRejectedKeepsPage(s: ConversionState, m: string)
    ensures PageData(Reduce(s, HistoryRejected(m)).history) == PageData(s.history)
    ensures Reduce(s, HistoryRejected(m)).history.error == Some(m)
    ensures !Reduce(s, HistoryRejected(m)).history.isLoading
  {
  }

  // ---------------------------------------------------------------------------------------------
  // Traces.

  lemma {:induction false} ApplyAllAppend(s: ConversionState, xs: seq<Action>, ys: seq<Action>)
    ensures ApplyAll(s, xs + ys) == ApplyAll(ApplyAll(s, xs), ys)
    decreases |xs|
  {
    if xs == [] {
      assert xs + ys == ys;
    } else {
      assert (xs + ys)[0] == xs[0];
      assert (xs + ys)[1..] == xs[1..] + ys;
      ApplyAllAppend(Reduce(s, xs[0]), xs[1..], ys);
    }
  }

  lemma ApplyOne(s: ConversionState, a: Action)
    ensures ApplyAll(s, [a]) == Reduce(s, a)
  {
    assert [a][1..] == [];
  }

  lemma ApplyTwo(s: ConversionState, a: Action, b: Action)
    ensures ApplyAll(s, [a, b]) == Reduce(Reduce(s, a), b)
  {
    assert [a, b][1..] == [b];
    ApplyOne(Reduce(s, a), b);
  }

  /** Pending then fulfilled: not loading, no error, output is the converted code, input kept. */
  lemma {:induction false} ConvertSucceeds(s: ConversionState, r: ConversionResult)
    ensures ApplyAll(s, [ConvertPending, ConvertFulfilled(r)]).current
         == s.current.(isLoading := false, nodeCode := r.convertedCode, error := None)
    ensures ApplyAll(s, [ConvertPending, ConvertFulfilled(r)]).history == s.history
  {
    ApplyTwo(s, ConvertPending, ConvertFulfilled(r));
  }

  /** Pending then rejected: not loading, the message is the error, and the previous output stays. */
  lemma {:induction false} ConvertFails(s: ConversionState, m: string)
    ensures ApplyAll(s, [ConvertPending, ConvertRejected(m)]).current
         == s.current.(isLoading := false, error := Some(m))
    ensures ApplyAll(s, [ConvertPending, ConvertRejected(m)]).current.nodeCode == s.current.nodeCode
    ensures ApplyAll(s, [ConvertPending, ConvertRejected(m)]).history == s.history
  {
    ApplyTwo(s, ConvertPending, ConvertRejected(m));
  }

  /** A whole `convertPhpToNode` run with no other event in between, for either outcome of the call. */
  lemma {:induction false} ConvertThunkOutcome(s: ConversionState, reply: Reply<ConversionResult>)
    ensures !ApplyAll(s, [ConvertPending, ConvertCompletion(reply)]).current.isLoading
    ensures reply.Delivered? ==>
              ApplyAll(s, [ConvertPending, ConvertCompletion(reply)]).current.nodeCode == reply.data.convertedCode
              && ApplyAll(s, [ConvertPending, ConvertCompletion(reply)]).current.error == None
    ensures reply.Failed? ==>
              ApplyAll(s, [ConvertPending, ConvertCompletion(reply)]).current.nodeCode == s.current.nodeCode
              && ApplyAll(s, [ConvertPending, ConvertCompletion(reply)]).current.error == Some(HandleApiError(reply.error))
  {
    match reply
    case Delivered(r) => ConvertSucceeds(s, r);
    case Failed(e) => ConvertFails(s, HandleApiError(e));
  }

  /** Pending then fulfilled for history: the page data is exactly the response, errors cleared. */
  lemma {:induction false} HistorySucceeds(s: ConversionState, p: HistoryResponse)
    ensures PageData(ApplyAll(s, [HistoryPending, HistoryFulfilled(p)]).history) == p
    ensures !ApplyAll(s, [HistoryPending, HistoryFulfilled(p)]).history.isLoading
    ensures ApplyAll(s, [HistoryPending, HistoryFulfilled(p)]).history.error == None
    ensures ApplyAll(s, [HistoryPending, HistoryFulfilled(p)]).current == s.current
  {
    ApplyTwo(s, HistoryPending, HistoryFulfilled(p));
  }

  /** Events that can change the output code. */
  predicate WritesNodeCode(a: Action) {
    a.ConvertFulfilled? || a.ResetConversion?
  }

  lemma {:induction false} NodeCodeFrame(s: ConversionState, evs: seq<Action>)
    requires forall i :: 0 <= i < |evs| ==> !WritesNodeCode(evs[i])
    ensures ApplyAll(s, evs).current.nodeCode == s.current.nodeCode
    decreases |evs|
  {
    if evs != [] {
      NodeCodeFrame(Reduce(s, evs[0]), evs[1..]);
    }
  }

  /** Last-resolved-wins: the output is the code of the last fulfilled conversion applied,
      whatever came before it, as long as no reset follows it. */
  lemma {:induction false} LastConversionWins(s: ConversionState, before: seq<Action>, r: ConversionResult, after: seq<Action>)
    requires forall i :: 0 <= i < |after| ==> !WritesNodeCode(after[i])
    ensures ApplyAll(s, before + [ConvertFulfilled(r)] + after).current.nodeCode == r.convertedCode
  {
    var mid := ApplyAll(s, before + [ConvertFulfilled(r)]);
    ApplyAllAppend(s, before + [ConvertFulfilled(r)], after);
    ApplyAllAppend(s, before, [ConvertFulfilled(r)]);
    ApplyOne(ApplyAll(s, before), ConvertFulfilled(r));
    NodeCodeFrame(mid, after);
  }

  lemma {:induction false} PageDataFrame(s: ConversionState, evs: seq<Action>)
    requires forall i :: 0 <= i < |evs| ==> !evs[i].HistoryFulfilled?
    ensures PageData(ApplyAll(s, evs).history) == PageData(s.history)
    decreases |evs|
  {
    if evs != [] {
      PageDataFrame(Reduce(s, evs[0]), evs[1..]);
    }
  }

  /** Last-resolved-wins for history: the page shown is the response of the last fulfilled fetch
      applied, even if a fetch issued later was rejected or is still in flight. */
  lemma {:induction false} LastHistoryWins(s: ConversionState, before: seq<Action>, p: HistoryResponse, after: seq<Action>)
    requires forall i :: 0 <= i < |after| ==> !after[i].HistoryFulfilled?
    ensures PageData(ApplyAll(s, before + [HistoryFulfilled(p)] + after).history) == p
  {
    ApplyAllAppend(s, before + [HistoryFulfilled(p)], after);
    ApplyAllAppend(s, before, [HistoryFulfilled(p)]);
    ApplyOne(ApplyAll(s, before), HistoryFulfilled(p));
    PageDataFrame(ApplyAll(s, before + [HistoryFulfilled(p)]), after);
  }

  /** Two overlapping conversions A then B, resolved B first: A's output overwrites B's. */
  lemma {:induction false} OverlappingConversionsClobber(s: ConversionState, a: ConversionResult, b: ConversionResult)
    ensures ApplyAll(s, [ConvertPending, ConvertPending, ConvertFulfilled(b), ConvertFulfilled(a)]).current.nodeCode
         == a.convertedCode
  {
    assert [ConvertPending, ConvertPending, ConvertFulfilled(b), ConvertFulfilled(a)]
        == [ConvertPending, ConvertPending, ConvertFulfilled(b)] + [ConvertFulfilled(a)] + [];
    LastConversionWins(s, [ConvertPending, ConvertPending, ConvertFulfilled(b)], a, []);
  }

  /** With two conversions in flight, the first completion already clears the loading flag. */
  lemma {:induction false} FirstCompletionClearsLoading(s: ConversionState, a: ConversionResult)
    ensures !ApplyAll(s, [ConvertPending, ConvertPending, ConvertFulfilled(a)]).current.isLoading
  {
    assert [ConvertPending, ConvertPending, ConvertFulfilled(a)] == [ConvertPending, ConvertPending] + [ConvertFulfilled(a)];
    ApplyAllAppend(s, [ConvertPending, ConvertPending], [ConvertFulfilled(a)]);
    ApplyOne(ApplyAll(s, [ConvertPending, ConvertPending]), ConvertFulfilled(a));
  }

  // ---------------------------------------------------------------------------------------------
  // Independence of the two sub-states.

  /** The events of a trace that can affect the history: history events and `clearError`. */
  function HistoryRelevant(evs: seq<Action>): (r: seq<Action>)
    ensures forall i :: 0 <= i < |r| ==> !IsConversionAction(r[i])
    ensures forall i :: 0 <= i < |evs| && !IsConversionAction(evs[i]) ==> evs[i] in r
    ensures forall a :: a in r ==> a in evs
    ensures |r| <= |evs|
  {
    if evs == [] then []
    else if IsConversionAction(evs[0]) then HistoryRelevant(evs[1..])
    else [evs[0]] + HistoryRelevant(evs[1..])
  }

  /** The events of a trace that can affect the current conversion: its events and `clearError`. */
  function ConversionRelevant(evs: seq<Action>): (r: seq<Action>)
    ensures forall i :: 0 <= i < |r| ==> !IsHistoryAction(r[i])
    ensures forall i :: 0 <= i < |evs| && !IsHistoryAction(evs[i]) ==> evs[i] in r
    ensures forall a :: a in r ==> a in evs
    ensures |r| <= |evs|
  {
    if evs == [] then []
    else if IsHistoryAction(evs[0]) then ConversionRelevant(evs[1..])
    else [evs[0]] + ConversionRelevant(evs[1..])
  }

  /** The history filter keeps the order of the trace: it filters each event on its own and
      distributes over concatenation. */
  lemma {:induction false} HistoryRelevantKeepsOrder(xs: seq<Action>, ys: seq<Action>, a: Action)
    ensures HistoryRelevant([a]) == if IsConversionAction(a) then [] else [a]
    ensures HistoryRelevant(xs + ys) == HistoryRelevant(xs) + HistoryRelevant(ys)
    decreases |xs|
  {
    assert [a][1..] == [];
    if xs == [] {
      assert xs + ys == ys;
    } else {
      assert (xs + ys)[0] == xs[0];
      assert (xs + ys)[1..] == xs[1..] + ys;
      HistoryRelevantKeepsOrder(xs[1..], ys, a);
    }
  }

  /** The conversion filter keeps the order of the trace in the same way. */
  lemma {:induction false} ConversionRelevantKeepsOrder(xs: seq<Action>, ys: seq<Action>, a: Action)
    ensures ConversionRelevant([a]) == if IsHistoryAction(a) then [] else [a]
    ensures ConversionRelevant(xs + ys) == ConversionRelevant(xs) + ConversionRelevant(ys)
    decreases |xs|
  {
    assert [a][1..] == [];
    if xs == [] {
      assert xs + ys == ys;
    } else {
      assert (xs + ys)[0] == xs[0];
      assert (xs + ys)[1..] == xs[1..] + ys;
      ConversionRelevantKeepsOrder(xs[1..], ys, a);
    }
  }

  /** Each sub-state after one event depends only on that sub-state before it. */
  lemma ReduceSeparates(s: ConversionState, t: ConversionState, a: Action)
    ensures s.history == t.history ==> Reduce(s, a).history == Reduce(t, a).history
    ensures s.current == t.current ==> Reduce(s, a).current == Reduce(t, a).current
  {
  }

  /** However conversion events are interleaved with a history trace, the history ends the same
      as if they had never happened. */
  lemma {:induction false} HistoryIgnoresConversion(s: ConversionState, t: ConversionState, evs: seq<Action>)
    requires s.history == t.history
    ensures ApplyAll(s, evs).history == ApplyAll(t, HistoryRelevant(evs)).history
    decreases |evs|
  {
    if evs != [] {
      var a := evs[0];
      if IsConversionAction(a) {
        HistoryIgnoresConversion(Reduce(s, a), t, evs[1..]);
      } else {
        ReduceSeparates(s, t, a);
        HistoryIgnoresConversion(Reduce(s, a), Reduce(t, a), evs[1..]);
        assert ([a] + HistoryRelevant(evs[1..]))[0] == a;
        assert ([a] + HistoryRelevant(evs[1..]))[1..] == HistoryRelevant(evs[1..]);
      }
    }
  }

  /** Symmetrically, history events never influence the current conversion. */
  lemma {:induction false} ConversionIgnoresHistory(s: ConversionState, t: ConversionState, evs: seq<Action>)
    requires s.current == t.current
    ensures ApplyAll(s, evs).current == ApplyAll(t, ConversionRelevant(evs)).current
    decreases |evs|
  {
    if evs != [] {
      var a := evs[0];
      if IsHistoryAction(a) {
        ConversionIgnoresHistory(Reduce(s, a), t, evs[1..]);
      } else {
        ReduceSeparates(s, t, a);
        ConversionIgnoresHistory(Reduce(s, a), Reduce(t, a), evs[1..]);
        assert ([a] + ConversionRelevant(evs[1..]))[0] == a;
        assert ([a] + ConversionRelevant(evs[1..]))[1..] == ConversionRelevant(evs[1..]);
      }
    }
  }

  // ---------------------------------------------------------------------------------------------
  // Invariants of reachable states.

  /** An error is either absent or a non-empty message, so "set" and "truthy" coincide. */
  predicate ErrorShown(e: Option<string>) {
    e.None? || e.value != ""
  }

  /** The pagination shape the server promises: a positive page and page size, and no more items than fit. */
  predicate WellFormedPage(p: HistoryResponse) {
    p.page >= 1 && p.limit > 0 && |p.items| <= p.limit && p.total >= 0 && p.totalPages >= 0
  }

  predicate Invariant(s: ConversionState) {
    ErrorShown(s.current.error) && ErrorShown(s.history.error) && WellFormedPage(PageData(s.history))
  }

  /** Events as the thunks produce them: rejection messages come from `handleApiError`, so they
      are non-empty, and fulfilled history pages are assumed well formed by the server. */
  predicate WellFormedEvent(a: Action) {
    match a
    case ConvertRejected(m) => m != ""
    case HistoryRejected(m) => m != ""
    case HistoryFulfilled(p) => WellFormedPage(p)
    case _ => true
  }

  lemma InitialInvariant()
    ensures Invariant(InitialState)
  {
  }

  lemma ReducePreservesInvariant(s: ConversionState, a: Action)
    requires Invariant(s) && WellFormedEvent(a)
    ensures Invariant(Reduce(s, a))
  {
  }

  lemma {:induction false} ApplyAllPreservesInvariant(s: ConversionState, evs: seq<Action>)
    requires Invariant(s)
    requires forall i :: 0 <= i < |evs| ==> WellFormedEvent(evs[i])
    ensures Invariant(ApplyAll(s, evs))
    decreases |evs|
  {
    if evs != [] {
      ReducePreservesInvariant(s, evs[0]);
      ApplyAllPreservesInvariant(Reduce(s, evs[0]), evs[1..]);
    }
  }

  /** Events whose rejection messages are non-empty, as every message from `handleApiError` is. */
  predicate NonEmptyRejection(a: Action) {
    (a.ConvertRejected? ==> a.message != "") && (a.HistoryRejected? ==> a.message != "")
  }

  /** Errors stay absent-or-non-empty over every trace whose rejection messages are non-empty,
      whatever pages the server sends. */
  lemma {:induction false} ApplyAllKeepsErrorsShown(s: ConversionState, evs: seq<Action>)
    requires ErrorShown(s.current.error) && ErrorShown(s.history.error)
    requires forall i :: 0 <= i < |evs| ==> NonEmptyRejection(evs[i])
    ensures ErrorShown(ApplyAll(s, evs).current.error) && ErrorShown(ApplyAll(s, evs).history.error)
    decreases |evs|
  {
    if evs != [] {
      ApplyAllKeepsErrorsShown(Reduce(s, evs[0]), evs[1..]);
    }
  }

  /** Every completion a thunk emits is well formed as far as the client is concerned. */
  lemma CompletionsWellFormed(c: Reply<ConversionResult>, h: Reply<HistoryResponse>)
    ensures WellFormedEvent(ConvertCompletion(c))
    ensures NonEmptyRejection(ConvertCompletion(c)) && NonEmptyRejection(HistoryCompletion(h))
    ensures h.Failed? ==> WellFormedEvent(HistoryCompletion(h))
    ensures h.Delivered? ==> (WellFormedEvent(HistoryCompletion(h)) <==> WellFormedPage(h.data))
  {
  }
}
