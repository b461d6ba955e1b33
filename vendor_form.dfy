/**
 * The vendor form component (src/components/vendor-form.tsx) as a state
 * machine. Its React state becomes the fields of a class, and each event
 * handler becomes one atomic method. The suggestion result and the
 * finalize outcome come from a server-actions module that is not part of
 * this model, so they enter as parameters.
 */
module VendorFormComponent {
  import opened Wrappers
  import Selection
  import SuggestionsRoute

  type Service = SuggestionsRoute.Service

  /** The value that the form's action last produced: `{ services?, error? }`. */
  datatype ActionState = ActionState(services: Option<seq<Service>>, error: Option<string>)

  const InitialState := ActionState(None, None)

  /**
   * How the awaited finalize call ends: it resolves to `{ success, message }`,
   * or it rejects, in which case the handler stops at the `await` and
   * nothing after it runs.
   */
  datatype FinalizeOutcome = Resolved(success: bool, message: string) | Rejected

  /** An outcome that closes the dialog: a resolved call reporting success. */
  predicate Succeeded(outcome: FinalizeOutcome)
  {
    outcome.Resolved? && outcome.success
  }

  class VendorForm {
    /** The last result of the suggestion action. */
    var state: ActionState
    var dialogOpen: bool
    /** Titles in the order their boxes were checked. */
    var selectedServices: seq<string>
    var isFinalizing: bool
    /** The contents of the two text areas, which a form reset empties. */
    var clientInterest: string
    var vendorCapability: string

    constructor ()
      ensures state == InitialState && !dialogOpen && selectedServices == [] && !isFinalizing
      ensures clientInterest == "" && vendorCapability == ""
    {
      state := InitialState;
      dialogOpen := false;
      selectedServices := [];
      isFinalizing := false;
      clientInterest := "";
      vendorCapability := "";
    }

    /** A box is shown checked when its title occurs in the selection at least once. */
    predicate IsChecked(title: string)
      reads this
      ensures IsChecked(title) <==> Selection.Count(selectedServices, title) > 0
    {
      title in selectedServices
    }

    /** The Finalize button is enabled when no call is in flight and some box is checked. */
    predicate FinalizeEnabled()
      reads this
      ensures FinalizeEnabled() <==> !isFinalizing && exists t :: IsChecked(t)
    {
      assert |selectedServices| > 0 ==> IsChecked(selectedServices[0]);
      !isFinalizing && |selectedServices| > 0
    }

    /** The user types into the text areas. */
    method EditFields(interest: string, capability: string)
      modifies this
      ensures clientInterest == interest && vendorCapability == capability
      ensures state == old(state) && dialogOpen == old(dialogOpen)
      ensures selectedServices == old(selectedServices) && isFinalizing == old(isFinalizing)
    {
      clientInterest, vendorCapability := interest, capability;
    }

    /**
     * A form submission completes with a new action result. The form's
     * function action resets the uncontrolled text areas once it completes,
     * and the effect then reacts to the result. Any `services` array, even
     * an empty one, opens the dialog and clears the selection; an error
     * alone changes neither.
     */
    method ReceiveState(result: ActionState)
      modifies this
      ensures state == result
      ensures result.services.Some? ==> dialogOpen && selectedServices == []
      ensures result.services.Some? ==> forall t :: !IsChecked(t)
      ensures result.services.None? ==>
                dialogOpen == old(dialogOpen) && selectedServices == old(selectedServices)
      ensures isFinalizing == old(isFinalizing)
      ensures clientInterest == "" && vendorCapability == ""
    {
      state := result;
      clientInterest, vendorCapability := "", "";
      if result.services.Some? {
        dialogOpen := true;
        selectedServices := [];
      }
    }

    /** A checkbox changes: the title is appended when checked, filtered out when unchecked. */
    method HandleCheckboxChange(title: string, checked: bool)
      modifies this
      ensures selectedServices == Selection.Toggled(old(selectedServices), title, checked)
      ensures IsChecked(title) == checked
      ensures forall t :: t != title ==> IsChecked(t) == old(IsChecked(t))
      ensures state == old(state) && dialogOpen == old(dialogOpen) && isFinalizing == old(isFinalizing)
      ensures clientInterest == old(clientInterest) && vendorCapability == old(vendorCapability)
    {
      selectedServices := Selection.Toggled(selectedServices, title, checked);
    }

    /** Cancel closes the dialog and touches nothing else. */
    method Cancel()
      modifies this
      ensures !dialogOpen
      ensures state == old(state) && selectedServices == old(selectedServices) && isFinalizing == old(isFinalizing)
      ensures clientInterest == old(clientInterest) && vendorCapability == old(vendorCapability)
    {
      dialogOpen := false;
    }

    /**
     * The first half of the finalize handler, up to the call: an empty
     * selection is refused and nothing changes; otherwise the flag is
     * raised and the selection is what the call sends.
     */
    method BeginFinalize() returns (call: Option<seq<string>>)
      modifies this
      ensures old(selectedServices) == [] ==> call.None? && isFinalizing == old(isFinalizing)
      ensures old(selectedServices) != [] ==> call == Some(old(selectedServices)) && isFinalizing
      ensures old(FinalizeEnabled()) ==> call.Some?
      ensures call.Some? ==> !FinalizeEnabled()
      ensures state == old(state) && dialogOpen == old(dialogOpen) && selectedServices == old(selectedServices)
      ensures clientInterest == old(clientInterest) && vendorCapability == old(vendorCapability)
    {
      if |selectedServices| == 0 {
        return None;
      }
      isFinalizing := true;
      call := Some(selectedServices);
    }

    /**
     * The second half, once the call has ended. A rejected call ends the
     * handler at the `await`, so the flag stays raised. A resolved call
     * clears the flag; a success closes the dialog and empties the text
     * areas, a failure keeps everything. The selection is kept in every case.
     */
    method EndFinalize(outcome: FinalizeOutcome)
      modifies this
      ensures outcome.Resolved? ==> !isFinalizing
      ensures outcome.Rejected? ==> isFinalizing == old(isFinalizing)
      ensures Succeeded(outcome) ==> !dialogOpen && clientInterest == "" && vendorCapability == ""
      ensures !Succeeded(outcome) ==> dialogOpen == old(dialogOpen)
      ensures !Succeeded(outcome) ==> clientInterest == old(clientInterest) && vendorCapability == old(vendorCapability)
      ensures state == old(state) && selectedServices == old(selectedServices)
    {
      if outcome.Rejected? {
        return;
      }
      isFinalizing := false;
      if outcome.success {
        dialogOpen := false;
        clientInterest, vendorCapability := "", "";
      }
    }

    /** The whole finalize handler, `outcome` being how the awaited call ends. */
    method HandleFinalize(outcome: FinalizeOutcome) returns (call: Option<seq<string>>)
      modifies this
      ensures old(selectedServices) == [] ==> call.None? && isFinalizing == old(isFinalizing)
      ensures old(selectedServices) == [] ==> dialogOpen == old(dialogOpen)
      ensures old(selectedServices) == [] ==>
                clientInterest == old(clientInterest) && vendorCapability == old(vendorCapability)
      ensures old(selectedServices) != [] ==> call == Some(old(selectedServices))
      ensures old(selectedServices) != [] ==> (isFinalizing <==> outcome.Rejected?)
      ensures old(selectedServices) != [] && Succeeded(outcome) ==>
                !dialogOpen && clientInterest == "" && vendorCapability == ""
      ensures old(selectedServices) != [] && !Succeeded(outcome) ==>
                dialogOpen == old(dialogOpen) && clientInterest == old(clientInterest) && vendorCapability == old(vendorCapability)
      ensures state == old(state) && selectedServices == old(selectedServices)
    {
      call := BeginFinalize();
      if call.Some? {
        EndFinalize(outcome);
      }
    }
  }

  /** Check `a`, check `b`, uncheck `a` on a freshly received result: only `b` stays selected. */
  method CheckUncheckScenario(services: seq<Service>, a: string, b: string) returns (selection: seq<string>, open: bool)
    requires a != b
    ensures selection == [b] && open
  {
    var form := new VendorForm();
    form.ReceiveState(ActionState(Some(services), None));
    form.HandleCheckboxChange(a, true);
    form.HandleCheckboxChange(b, true);
    form.HandleCheckboxChange(a, false);
    Selection.CheckCheckUncheck([], a, b);
    selection, open := form.selectedServices, form.dialogOpen;
  }

  /**
   * Two boxes on, one off, then finalize: the call carries the remaining
   * title. On failure the dialog stays open with the same selection; on
   * success the dialog closes, yet the selection is still there. A rejected
   * call leaves the flag raised, so the Finalize button stays disabled.
   */
  method FinalizeScenario(services: seq<Service>, a: string, b: string, outcome: FinalizeOutcome)
    returns (call: Option<seq<string>>, selection: seq<string>, open: bool, finalizing: bool, enabled: bool)
    requires a != b
    ensures call == Some([b]) && selection == [b]
    ensures open <==> !Succeeded(outcome)
    ensures finalizing <==> outcome.Rejected?
    ensures enabled <==> outcome.Resolved?
  {
    var form := new VendorForm();
    form.EditFields("A short-form e-commerce build", "React and Node.js team with Shopify experience");
    form.ReceiveState(ActionState(Some(services), None));
    form.HandleCheckboxChange(a, true);
    form.HandleCheckboxChange(b, true);
    form.HandleCheckboxChange(a, false);
    Selection.CheckCheckUncheck([], a, b);
    call := form.HandleFinalize(outcome);
    selection, open, finalizing := form.selectedServices, form.dialogOpen, form.isFinalizing;
    enabled := form.FinalizeEnabled();
  }

  /** Finalize with nothing selected makes no call and changes nothing. */
  method EmptyFinalizeScenario(services: seq<Service>, outcome: FinalizeOutcome)
    returns (call: Option<seq<string>>, open: bool, finalizing: bool)
    ensures call.None? && open && !finalizing
  {
    var form := new VendorForm();
    form.ReceiveState(ActionState(Some(services), None));
    call := form.HandleFinalize(outcome);
    open, finalizing := form.dialogOpen, form.isFinalizing;
  }

  /** A result carrying only an error leaves an open dialog and its selection as they were. */
  method ErrorResultScenario(services: seq<Service>, title: string, error: string)
    returns (selection: seq<string>, open: bool)
    ensures selection == [title] && open
  {
    var form := new VendorForm();
    form.ReceiveState(ActionState(Some(services), None));
    form.HandleCheckboxChange(title, true);
    form.ReceiveState(ActionState(None, Some(error)));
    selection, open := form.selectedServices, form.dialogOpen;
  }
}
