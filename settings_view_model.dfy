/**
 * `SettingsViewModel`: the developer reset that clears the user's
 * transactions and resyncs them from the inbox. The signed-in user and the
 * repository calls' outcomes are inputs.
 */
module SettingsViewModel {
  import opened Common

  /** `developerClearUserTransactions`: success, a failure result, or an exception (each with its message). */
  datatype ClearOutcome = Cleared | ClearFailed(message: Option<string>) | ClearThrew(message: Option<string>)

  /** `getTransactions(forceRefresh = true)`: it returns, or it throws. */
  datatype ResyncOutcome = Resynced | ResyncThrew(message: Option<string>)

  const SuccessMessage: string := "Successfully cleared and resynced data."
  const ClearFailedMessage: string := "Failed to clear user transactions."
  const ErrorPrefix: string := "An error occurred: "
  const NotLoggedIn: string := "User not logged in."

  /** Kotlin's string template prints a null message as "null". */
  function Interpolated(message: Option<string>): string {
    OrElse(message, "null")
  }

  /** Whether the run reaches the resync: only after a successful clear. */
  predicate ResyncCalled(clear: ClearOutcome) {
    clear.Cleared?
  }

  /** The message a reset for a signed-in user ends with. */
  function ResetMessage(clear: ClearOutcome, resync: ResyncOutcome): (r: string)
    ensures clear.Cleared? && resync.Resynced? ==> r == SuccessMessage
    ensures clear.ClearFailed? ==> r == OrElse(clear.message, ClearFailedMessage)
    ensures clear.ClearThrew? ==> r == ErrorPrefix + Interpolated(clear.message)
    ensures clear.Cleared? && resync.ResyncThrew? ==> r == ErrorPrefix + Interpolated(resync.message)
  {
    match clear
    case Cleared =>
      (match resync
       case Resynced => SuccessMessage
       case ResyncThrew(m) => ErrorPrefix + Interpolated(m))
    case ClearFailed(m) => OrElse(m, ClearFailedMessage)
    case ClearThrew(m) => ErrorPrefix + Interpolated(m)
  }

  /** Every exception is reported with the prefix, so it never reads as the success message. */
  lemma ExceptionNotSuccess(clear: ClearOutcome, resync: ResyncOutcome)
    requires clear.ClearThrew? || (clear.Cleared? && resync.ResyncThrew?)
    ensures ResetMessage(clear, resync) != SuccessMessage
    ensures ErrorPrefix <= ResetMessage(clear, resync)
  {
    var r := ResetMessage(clear, resync);
    assert r[0] == 'A';
  }

  class SettingsViewModel {
    var isLoading: bool
    var showConfirmationDialog: bool
    var userMessage: Option<string>

    constructor ()
      ensures !isLoading && !showConfirmationDialog && userMessage.None?
    {
      isLoading := false;
      showConfirmationDialog := false;
      userMessage := None;
    }

    method OnShowDialog()
      modifies this
      ensures showConfirmationDialog && isLoading == old(isLoading) && userMessage == old(userMessage)
    {
      showConfirmationDialog := true;
    }

    method OnDismissDialog()
      modifies this
      ensures !showConfirmationDialog && isLoading == old(isLoading) && userMessage == old(userMessage)
    {
      showConfirmationDialog := false;
    }

    method ClearUserMessage()
      modifies this
      ensures userMessage.None? && isLoading == old(isLoading) && showConfirmationDialog == old(showConfirmationDialog)
    {
      userMessage := None;
    }

    /**
     * `performFullUserResetAndResync`, for the signed-in user's id `uid`
     * (`None` when nobody is signed in, which leaves the loading flag alone).
     */
    method PerformFullUserResetAndResync(uid: Option<string>, clear: ClearOutcome, resync: ResyncOutcome)
      returns (clearCalled: bool, resyncCalled: bool)
      modifies this
      ensures clearCalled <==> uid.Some?
      ensures resyncCalled <==> uid.Some? && ResyncCalled(clear)
      ensures uid.None? ==> userMessage == Some(NotLoggedIn) && isLoading == old(isLoading)
      ensures uid.Some? ==> userMessage == Some(ResetMessage(clear, resync)) && !isLoading
      ensures showConfirmationDialog == old(showConfirmationDialog)
    {
      if uid.None? {
        userMessage := Some(NotLoggedIn);
        return false, false;
      }
      isLoading := true;
      userMessage := None;
      clearCalled := true;
      resyncCalled := false;
      match clear {
        case Cleared =>
          resyncCalled := true;
          match resync {
            case Resynced => userMessage := Some(SuccessMessage);
            case ResyncThrew(m) => userMessage := Some(ErrorPrefix + Interpolated(m));
          }
        case ClearFailed(m) => userMessage := Some(OrElse(m, ClearFailedMessage));
        case ClearThrew(m) => userMessage := Some(ErrorPrefix + Interpolated(m));
      }
      isLoading := false;
    }

    /** `onConfirmReset`: the dialog closes, then the reset runs. */
    method OnConfirmReset(uid: Option<string>, clear: ClearOutcome, resync: ResyncOutcome)
      returns (clearCalled: bool, resyncCalled: bool)
      modifies this
      ensures !showConfirmationDialog
      ensures clearCalled <==> uid.Some?
      ensures resyncCalled <==> uid.Some? && ResyncCalled(clear)
      ensures uid.None? ==> userMessage == Some(NotLoggedIn) && isLoading == old(isLoading)
      ensures uid.Some? ==> userMessage == Some(ResetMessage(clear, resync)) && !isLoading
    {
      showConfirmationDialog := false;
      clearCalled, resyncCalled := PerformFullUserResetAndResync(uid, clear, resync);
    }
  }
}
