/** The conversion form: the user intents it turns into store commands, the enable rules of its
    buttons, and its one piece of local state, the copy-to-clipboard confirmation. */
module ConversionForm {
  import opened Api
  import opened ConversionSlice
  import opened ConversionLaws
  import opened JsString

  const CopiedMessage: string := "Code copied to clipboard!"
  const CopyFailedMessage: string := "Failed to copy code."

  /** Typing: always store the new input; clear the errors only when an error is showing. */
  function OnPhpCodeChange(error: Option<string>, value: string): (cmds: seq<Command>)
    ensures 1 <= |cmds| <= 2 && cmds[0] == Plain(SetPhpCode(value))
    ensures |cmds| == 2 <==> Truthy(error)
    ensures |cmds| == 2 ==> cmds[1] == Plain(ClearError)
  {
    if Truthy(error) then [Plain(SetPhpCode(value)), Plain(ClearError)] else [Plain(SetPhpCode(value))]
  }

  /** Convert: request a conversion of the input unless it is blank. */
  function OnConvert(phpCode: string): (cmds: seq<Command>)
    ensures cmds == [] <==> IsBlank(phpCode)
    ensures cmds != [] ==> cmds == [ConvertPhpToNode(phpCode)]
  {
    TrimEmptyIffBlank(phpCode);
    if Trim(phpCode) != "" then [ConvertPhpToNode(phpCode)] else []
  }

  /** Reset: exactly one `resetConversion`. */
  function OnReset(): (cmds: seq<Command>)
    ensures |cmds| == 1 && cmds[0].Plain? && cmds[0].action.ResetConversion?
  {
    [Plain(ResetConversion)]
  }

  /** Closing the error alert: exactly one `clearError`. */
  function OnCloseErrorAlert(): (cmds: seq<Command>)
    ensures |cmds| == 1 && cmds[0].Plain? && cmds[0].action.ClearError?
  {
    [Plain(ClearError)]
  }

  /** The Convert button is disabled while loading or while the input is blank. */
  function ConvertDisabled(c: CurrentConversion): (disabled: bool)
    ensures disabled <==> c.isLoading || IsBlank(c.phpCode)
  {
    TrimEmptyIffBlank(c.phpCode);
    c.isLoading || Trim(c.phpCode) == ""
  }

  /** The Reset button is disabled exactly while a conversion is loading, and then Convert is too. */
  function ResetDisabled(c: CurrentConversion): (disabled: bool)
    ensures disabled <==> c.isLoading
    ensures disabled ==> ConvertDisabled(c)
  {
    c.isLoading
  }

  /** The Copy button is disabled while there is no output, in particular after a reset. */
  function CopyDisabled(c: CurrentConversion): (disabled: bool)
    ensures disabled <==> |c.nodeCode| == 0
    ensures c.nodeCode == InitialCurrent.nodeCode ==> disabled
  {
    c.nodeCode == ""
  }

  /** The error alert is shown while the error is truthy: in a state whose error is absent or
      non-empty, exactly while an error is set. */
  function ErrorAlertShown(c: CurrentConversion): (shown: bool)
    ensures shown ==> c.error.Some?
    ensures ErrorShown(c.error) ==> (shown <==> c.error.Some?)
  {
    Truthy(c.error)
  }

  /** Typing from any reachable state stores the input and hides the error; the history error is
      cleared too whenever a conversion error was showing. */
  lemma {:induction false} TypingClearsError(s: ConversionState, value: string)
    requires ErrorShown(s.current.error)
    ensures ApplyAll(s, Started(OnPhpCodeChange(s.current.error, value))).current
         == s.current.(phpCode := value, error := None)
    ensures ApplyAll(s, Started(OnPhpCodeChange(s.current.error, value))).history
         == (if s.current.error.Some? then s.history.(error := None) else s.history)
  {
    var cmds := OnPhpCodeChange(s.current.error, value);
    if Truthy(s.current.error) {
      assert Started(cmds) == [SetPhpCode(value), ClearError];
      ApplyTwo(s, SetPhpCode(value), ClearError);
    } else {
      assert Started(cmds) == [SetPhpCode(value)];
      ApplyOne(s, SetPhpCode(value));
    }
  }

  /** Typing hides the error in every state the store can reach, whatever pages the server sent:
      every rejection message comes from `handleApiError` and is non-empty. */
  lemma {:induction false} TypingClearsErrorWhenReachable(evs: seq<Action>, value: string)
    requires forall i :: 0 <= i < |evs| ==> NonEmptyRejection(evs[i])
    ensures ApplyAll(ApplyAll(InitialState, evs),
                     Started(OnPhpCodeChange(ApplyAll(InitialState, evs).current.error, value))).current
         == ApplyAll(InitialState, evs).current.(phpCode := value, error := None)
  {
    ApplyAllKeepsErrorsShown(InitialState, evs);
    TypingClearsError(ApplyAll(InitialState, evs), value);
  }

  /** A blank input issues no request and leaves the store as it was. */
  lemma BlankInputDoesNothing(s: ConversionState, phpCode: string)
    requires IsBlank(phpCode)
    ensures ApplyAll(s, Started(OnConvert(phpCode))) == s
  {
    assert Started(OnConvert(phpCode)) == [];
  }

  /** When the Convert button is enabled, clicking it requests the conversion of the current
      input; when it is disabled only because the input is blank, clicking does nothing. */
  lemma ConvertButtonMatchesHandler(c: CurrentConversion)
    ensures !ConvertDisabled(c) ==> OnConvert(c.phpCode) == [ConvertPhpToNode(c.phpCode)]
    ensures ConvertDisabled(c) && !c.isLoading ==> OnConvert(c.phpCode) == []
  {
  }

  /** A click on Convert marks the conversion as loading and clears its error at once. */
  lemma {:induction false} ConvertClickStartsLoading(s: ConversionState)
    requires !ConvertDisabled(s.current)
    ensures ApplyAll(s, Started(OnConvert(s.current.phpCode))).current
         == s.current.(isLoading := true, error := None)
  {
    assert Started(OnConvert(s.current.phpCode)) == [ConvertPending];
    ApplyOne(s, ConvertPending);
  }

  /** Reset from the form empties both editors and clears the error, leaving the history alone. */
  lemma {:induction false} ResetFromForm(s: ConversionState)
    ensures ApplyAll(s, Started(OnReset())).current == InitialCurrent
    ensures ApplyAll(s, Started(OnReset())).history == s.history
  {
    assert Started(OnReset()) == [ResetConversion];
    ApplyOne(s, ResetConversion);
  }

  /** After the error alert is closed, neither alert is shown. */
  lemma {:induction false} CloseAlertHidesErrors(s: ConversionState)
    ensures !ErrorAlertShown(ApplyAll(s, Started(OnCloseErrorAlert())).current)
    ensures ApplyAll(s, Started(OnCloseErrorAlert())).history.error == None
  {
    assert Started(OnCloseErrorAlert()) == [ClearError];
    ApplyOne(s, ClearError);
  }

  /** While a conversion is in flight both Convert and Reset are disabled. Once it settles, Reset
      is enabled again, Convert is enabled iff the input is not blank, and Copy is enabled iff
      there is output. */
  lemma {:induction false} ButtonsFollowLifecycle(s: ConversionState, reply: Reply<ConversionResult>)
    ensures ConvertDisabled(Reduce(s, ConvertPending).current) && ResetDisabled(Reduce(s, ConvertPending).current)
    ensures !ResetDisabled(ApplyAll(s, [ConvertPending, ConvertCompletion(reply)]).current)
    ensures ConvertDisabled(ApplyAll(s, [ConvertPending, ConvertCompletion(reply)]).current) <==> IsBlank(s.current.phpCode)
    ensures reply.Delivered? ==>
              (CopyDisabled(ApplyAll(s, [ConvertPending, ConvertCompletion(reply)]).current) <==> reply.data.convertedCode == "")
    ensures reply.Failed? ==>
              (CopyDisabled(ApplyAll(s, [ConvertPending, ConvertCompletion(reply)]).current) <==> CopyDisabled(s.current))
  {
    ApplyTwo(s, ConvertPending, ConvertCompletion(reply));
  }

  /** The copy confirmation: the form's local state. The clipboard write itself is asynchronous
      browser I/O; its outcome is a parameter. */
  class CopyFeedback {
    var message: Option<string>

    constructor ()
      ensures message == None
    {
      message := None;
    }

    /** Copy the output: nothing happens when it is empty; otherwise the outcome of the clipboard
        write selects the confirmation shown. */
    method HandleCopyToClipboard(nodeCode: string, written: bool)
      modifies this
      ensures nodeCode == "" ==> message == old(message)
      ensures nodeCode != "" && written ==> message == Some(CopiedMessage)
      ensures nodeCode != "" && !written ==> message == Some(CopyFailedMessage)
    {
      if nodeCode != "" {
        if written {
          message := Some(CopiedMessage);
        } else {
          message := Some(CopyFailedMessage);
        }
      }
    }

    /** The success alert is closed by the user or by the three-second timer. */
    method Dismiss()
      modifies this
      ensures message == None
    {
      message := None;
    }
  }
}
