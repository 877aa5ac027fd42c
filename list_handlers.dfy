/**
 * The delete handler shared by the product, client and sale lists: after the browser's confirmation it
 * runs the delete through `useApiMutation` with a success message and `onSuccess: () => refetch()`.
 * The list is never edited locally; it changes only through the refetch.
 */
module ListHandlers {
  import opened Wrappers
  import UseApi

  /** The options every list passes to `mutate` for a delete. */
  function DeleteOptions(successMessage: string): UseApi.MutateOptions
  {
    UseApi.MutateOptions(true, false, Some(successMessage))
  }

  /** What `handleDelete` does: nothing when not confirmed, else the effects of the delete mutation. */
  function DeleteEffects<T>(confirmed: bool, successMessage: string, outcome: UseApi.Outcome<T>)
    : (r: seq<UseApi.Effect<T>>)
    requires successMessage != []
    ensures !confirmed ==> r == []
    ensures confirmed && outcome.Resolved? ==>
      r == [UseApi.Toasted(UseApi.SuccessToast(successMessage)), UseApi.CalledOnSuccess(outcome.data)]
    ensures confirmed && outcome.Rejected? ==>
      r == [UseApi.Toasted(UseApi.ErrorToast(UseApi.MessageOr(outcome.error, UseApi.MUTATION_ERROR)))]
  {
    if confirmed then UseApi.MutateEffects(Some(DeleteOptions(successMessage)), outcome) else []
  }

  /** The number of `refetch` calls among the effects: `onSuccess` is `refetch`. */
  function Refetches<T>(effects: seq<UseApi.Effect<T>>): nat
  {
    if effects == [] then 0
    else Refetches(effects[..|effects| - 1]) + (if effects[|effects| - 1].CalledOnSuccess? then 1 else 0)
  }

  /** A delete refetches the list exactly once when it was confirmed and succeeded, and never otherwise. */
  lemma DeleteRefetchesOnSuccessOnly<T>(confirmed: bool, successMessage: string, outcome: UseApi.Outcome<T>)
    requires successMessage != []
    ensures Refetches(DeleteEffects(confirmed, successMessage, outcome)) == if confirmed && outcome.Resolved? then 1 else 0
  {
    var r := DeleteEffects(confirmed, successMessage, outcome);
    if confirmed && outcome.Resolved? {
      assert r[..1] == [r[0]] && [r[0]][..0] == [];
      assert Refetches(r[..1]) == 0;
      assert r[|r| - 1].CalledOnSuccess?;
    } else if confirmed {
      assert r[..0] == [];
    }
  }
}
