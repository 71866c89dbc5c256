/** The billing-plan list page (app/billing_plan/page.tsx): load the plans once, and remove the
    selected ones with the shared remove loop. */
module BillingPlans {
  import opened Common
  import opened Entities
  import BulkSelection

  class BillingPlanDashboard {
    var billingPlans: seq<BillingPlan>
    /** The grid's selection: row positions, in the order they were selected. */
    var selectedItems: seq<int>
    var loading: bool
    /** Ids sent to the delete endpoint, in order. */
    var deleteRequests: seq<int>

    constructor ()
      ensures billingPlans == [] && selectedItems == [] && loading && deleteRequests == []
    {
      billingPlans, selectedItems, loading, deleteRequests := [], [], true, [];
    }

    /** The mount effect: a fetch whose failure is only logged; the spinner goes off either way. */
    method Mount(response: Outcome<seq<BillingPlan>>)
      modifies this`billingPlans, this`loading
      ensures billingPlans == if response.Resolved? then response.value else old(billingPlans)
      ensures !loading
    {
      if response.Resolved? {
        billingPlans := response.value;
      }
      loading := false;
    }

    method SelectionChange(selected: seq<int>)
      modifies this`selectedItems
      ensures selectedItems == selected
    {
      selectedItems := selected;
    }

    /** "Remove Selected" is shown while something is selected. */
    predicate RemoveVisible()
      reads this
    {
      |selectedItems| > 0
    }

    /** "Remove Selected": delete the selected plans one by one, stopping at the first failure;
        the list ends up as the starting list without the last deleted id, and the selection is
        cleared only when every selected plan was deleted. */
    method HandleRemove(deleteOk: int -> bool) returns (done: nat)
      modifies this`billingPlans, this`selectedItems, this`deleteRequests
      ensures BulkSelection.StopsAtFirstFailure(old(billingPlans), BillingPlanId, deleteOk, old(selectedItems), done)
      ensures billingPlans == BulkSelection.AfterRemove(old(billingPlans), BillingPlanId, old(selectedItems), done)
      ensures deleteRequests == old(deleteRequests)
                + BulkSelection.DeletedIds(old(billingPlans), BillingPlanId, BulkSelection.Attempted(old(selectedItems), done))
      ensures selectedItems == if done == |old(selectedItems)| then [] else old(selectedItems)
    {
      var shown, deleted;
      done, shown, deleted := BulkSelection.RemoveSelected(billingPlans, BillingPlanId, selectedItems, deleteOk);
      billingPlans := shown;
      deleteRequests := deleteRequests + deleted;
      if done == |selectedItems| {
        selectedItems := [];
      }
    }
  }

  /** Removing one selected plan that the backend deletes hides it and clears the selection; a
      rejected deletion changes neither the list nor the selection. */
  method RemoveOne(plans: seq<BillingPlan>, p: nat, deleteOk: int -> bool)
    requires p < |plans|
  {
    var d := new BillingPlanDashboard();
    d.Mount(Resolved(plans));
    d.SelectionChange([p]);
    var done := d.HandleRemove(deleteOk);
    assert d.deleteRequests == [plans[p].id];
    if deleteOk(plans[p].id) {
      assert done == 1;
      assert plans[p] !in d.billingPlans && !d.RemoveVisible();
    } else {
      assert done == 0;
      assert d.billingPlans == plans && d.RemoveVisible();
    }
  }
}
