/** The `conversion` slice of the application store: the current conversion (the PHP input, the
    Node.js output, a loading flag and an error) and the page of history last fetched.

    `Reduce` is the slice's reducer, one case per action; `ConversionStore` is the store itself,
    whose methods update its two sub-states in place and are proved against `Reduce`. Each async
    thunk is a pending event followed, later and in any order relative to other events, by a
    fulfilled or rejected event; a run of the store is a trace of events folded by `ApplyAll`. */
module ConversionSlice {
  import opened Api

  datatype CurrentConversion = CurrentConversion(
    phpCode: string,
    nodeCode: string,
    isLoading: bool,
    error: Option<string>)

  datatype HistoryState = HistoryState(
    items: seq<HistoryItem>,
    total: int,
    page: int,
    limit: int,
    totalPages: int,
    isLoading: bool,
    error: Option<string>)

  datatype ConversionState = ConversionState(current: CurrentConversion, history: HistoryState)

  const InitialCurrent: CurrentConversion := CurrentConversion("", "", false, None)
  const InitialHistory: HistoryState := HistoryState([], 0, 1, 10, 0, false, None)
  const InitialState: ConversionState := ConversionState(InitialCurrent, InitialHistory)

  /** The three plain reducers and the six lifecycle events of the two async thunks. */
  datatype Action =
    | SetPhpCode(code: string)
    | ResetConversion
    | ClearError
    | ConvertPending
    | ConvertFulfilled(result: ConversionResult)
    | ConvertRejected(message: string)
    | HistoryPending
    | HistoryFulfilled(response: HistoryResponse)
    | HistoryRejected(message: string)

  /** Actions that only concern the current conversion. */
  predicate IsConversionAction(a: Action) {
    a.SetPhpCode? || a.ResetConversion? || a.ConvertPending? || a.ConvertFulfilled? || a.ConvertRejected?
  }

  /** Actions that only concern the history page. */
  predicate IsHistoryAction(a: Action) {
    a.HistoryPending? || a.HistoryFulfilled? || a.HistoryRejected?
  }

  /** The five fields a successful history fetch overwrites together. */
  function PageData(h: HistoryState): HistoryResponse {
    HistoryResponse(h.items, h.total, h.page, h.limit, h.totalPages)
  }

  /** The slice reducer. */
  function Reduce(s: ConversionState, a: Action): (t: ConversionState)
    ensures IsConversionAction(a) ==> t.history == s.history
    ensures IsHistoryAction(a) ==> t.current == s.current
    ensures a.ClearError? ==> t.current.error == None && t.history.error == None
  {
    match a
    case SetPhpCode(code) =>
      s.(current := s.current.(phpCode := code))
    case ResetConversion =>
      s.(current := InitialCurrent)
    case ClearError =>
      s.(current := s.current.(error := None), history := s.history.(error := None))
    case ConvertPending =>
      s.(current := s.current.(isLoading := true, error := None))
    case ConvertFulfilled(r) =>
      s.(current := s.current.(isLoading := false, nodeCode := r.convertedCode))
    case ConvertRejected(m) =>
      s.(current := s.current.(isLoading := false, error := Some(m)))
    case HistoryPending =>
      s.(history := s.history.(isLoading := true, error := None))
    case HistoryFulfilled(p) =>
      s.(history := s.history.(isLoading := false, items := p.items, total := p.total,
                               page := p.page, limit := p.limit, totalPages := p.totalPages))
    case HistoryRejected(m) =>
      s.(history := s.history.(isLoading := false, error := Some(m)))
  }

  /** The state after the events `evs` have been applied in order. */
  function ApplyAll(s: ConversionState, evs: seq<Action>): ConversionState
    decreases |evs|
  {
    if evs == [] then s else ApplyAll(Reduce(s, evs[0]), evs[1..])
  }

  // ---------------------------------------------------------------------------------------------
  // What the view can dispatch: a plain action, or one of the two thunks.

  /** The slice's own action creators: `setPhpCode`, `resetConversion` and `clearError`. */
  type PlainAction = a: Action | a.SetPhpCode? || a.ResetConversion? || a.ClearError? witness ClearError

  datatype Command =
    | Plain(action: PlainAction)
    | ConvertPhpToNode(phpCode: string)
    | GetConversionHistory(params: HistoryParams)

  /** The action that dispatching `c` applies at once: a thunk applies its pending event
      synchronously and its completion only when the request settles. */
  function StartedBy(c: Command): Action {
    match c
    case Plain(a) => a
    case ConvertPhpToNode(_) => ConvertPending
    case GetConversionHistory(_) => HistoryPending
  }

  function Started(cmds: seq<Command>): (evs: seq<Action>)
    ensures |evs| == |cmds|
    ensures forall i :: 0 <= i < |cmds| ==>
              (cmds[i].Plain? ==> evs[i] == cmds[i].action)
              && (cmds[i].ConvertPhpToNode? ==> evs[i] == ConvertPending)
              && (cmds[i].GetConversionHistory? ==> evs[i] == HistoryPending)
    ensures forall i :: 0 <= i < |evs| ==>
              !evs[i].ConvertFulfilled? && !evs[i].ConvertRejected?
              && !evs[i].HistoryFulfilled? && !evs[i].HistoryRejected?
  {
    seq(|cmds|, i requires 0 <= i < |cmds| => StartedBy(cmds[i]))
  }

  /** The completion event of `convertPhpToNode`: the record on success, else the rejection message. */
  function ConvertCompletion(reply: Reply<ConversionResult>): (a: Action)
    ensures a.ConvertFulfilled? <==> reply.Delivered?
    ensures a.ConvertFulfilled? ==> a.result == reply.data
    ensures a.ConvertRejected? ==> a.message == HandleApiError(reply.error)
    ensures a.ConvertFulfilled? || a.ConvertRejected?
  {
    match Settle(reply)
    case Ok(r) => ConvertFulfilled(r)
    case Err(m) => ConvertRejected(m)
  }

  /** The completion event of `getConversionHistory`. */
  function HistoryCompletion(reply: Reply<HistoryResponse>): (a: Action)
    ensures a.HistoryFulfilled? <==> reply.Delivered?
    ensures a.HistoryFulfilled? ==> a.response == reply.data
    ensures a.HistoryRejected? ==> a.message == HandleApiError(reply.error)
    ensures a.HistoryFulfilled? || a.HistoryRejected?
  {
    match Settle(reply)
    case Ok(r) => HistoryFulfilled(r)
    case Err(m) => HistoryRejected(m)
  }

  // ---------------------------------------------------------------------------------------------
  // The store object.

  class ConversionStore {
    var current: CurrentConversion
    var history: HistoryState

    function State(): ConversionState
      reads this
    {
      ConversionState(current, history)
    }

    constructor ()
      ensures State() == InitialState
      ensures current.phpCode == "" && current.nodeCode == "" && !current.isLoading && current.error == None
      ensures history.items == [] && history.total == 0 && history.totalPages == 0
      ensures history.page == 1 && history.limit == 10 && !history.isLoading && history.error == None
    {
      current := InitialCurrent;
      history := InitialHistory;
    }

    method SetPhpCode(code: string)
      modifies this
      ensures current == old(current).(phpCode := code)
      ensures history == old(history)
      ensures State() == Reduce(old(State()), Action.SetPhpCode(code))
    {
      current := current.(phpCode := code);
    }

    method ResetConversion()
      modifies this
      ensures current == InitialCurrent
      ensures history == old(history)
      ensures State() == Reduce(old(State()), Action.ResetConversion)
    {
      current := InitialCurrent;
    }

    method ClearError()
      modifies this
      ensures current == old(current).(error := None)
      ensures history == old(history).(error := None)
      ensures State() == Reduce(old(State()), Action.ClearError)
    {
      current := current.(error := None);
      history := history.(error := None);
    }

    method ConvertPending()
      modifies this
      ensures current == old(current).(isLoading := true, error := None)
      ensures history == old(history)
      ensures State() == Reduce(old(State()), Action.ConvertPending)
    {
      current := current.(isLoading := true);
      current := current.(error := None);
    }

    method ConvertFulfilled(r: ConversionResult)
      modifies this
      ensures current == old(current).(isLoading := false, nodeCode := r.convertedCode)
      ensures history == old(history)
      ensures State() == Reduce(old(State()), Action.ConvertFulfilled(r))
    {
      current := current.(isLoading := false);
      current := current.(nodeCode := r.convertedCode);
    }

    method ConvertRejected(message: string)
      modifies this
      ensures current == old(current).(isLoading := false, error := Some(message))
      ensures history == old(history)
      ensures State() == Reduce(old(State()), Action.ConvertRejected(message))
    {
      current := current.(isLoading := false);
      current := current.(error := Some(message));
    }

    method HistoryPending()
      modifies this
      ensures history == old(history).(isLoading := true, error := None)
      ensures current == old(current)
      ensures State() == Reduce(old(State()), Action.HistoryPending)
    {
      history := history.(isLoading := true);
      history := history.(error := None);
    }

    method HistoryFulfilled(p: HistoryResponse)
      modifies this
      ensures PageData(history) == p
      ensures !history.isLoading && history.error == old(history).error
      ensures current == old(current)
      ensures State() == Reduce(old(State()), Action.HistoryFulfilled(p))
    {
      history := history.(isLoading := false);
      history := history.(items := p.items);
      history := history.(total := p.total);
      history := history.(page := p.page);
      history := history.(limit := p.limit);
      history := history.(totalPages := p.totalPages);
    }

    method HistoryRejected(message: string)
      modifies this
      ensures history == old(history).(isLoading := false, error := Some(message))
      ensures current == old(current)
      ensures State() == Reduce(old(State()), Action.HistoryRejected(message))
    {
      history := history.(isLoading := false);
      history := history.(error := Some(message));
    }

    /** The store's `dispatch` of a plain action or lifecycle event: the matching case runs. */
    method Dispatch(a: Action)
      modifies this
      ensures State() == Reduce(old(State()), a)
    {
      match a
      case SetPhpCode(code) => SetPhpCode(code);
      case ResetConversion => ResetConversion();
      case ClearError => ClearError();
      case ConvertPending => ConvertPending();
      case ConvertFulfilled(r) => ConvertFulfilled(r);
      case ConvertRejected(m) => ConvertRejected(m);
      case HistoryPending => HistoryPending();
      case HistoryFulfilled(p) => HistoryFulfilled(p);
      case HistoryRejected(m) => HistoryRejected(m);
    }
  }
}
