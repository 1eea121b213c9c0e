/** The paywall (src/components/subscription/SubscriptionGuard.tsx): an ordered chain of early returns. */
module SubscriptionGuard {
  import opened Wrappers
  import opened Session

  /** What the guard renders. */
  datatype View = Nothing | Checking | Paywall | Children(tier: Option<string>)

  function Render(user: Option<User>, loading: bool, subscribed: bool, tier: Option<string>): (v: View)
    ensures user.None? ==> v == Nothing
    ensures user.Some? && loading ==> v == Checking
    ensures user.Some? && !loading && !subscribed ==> v == Paywall
    ensures v.Children? ==> v.tier == tier
  {
    if user.None? then Nothing
    else if loading then Checking
    else if !subscribed then Paywall
    else Children(tier)
  }

  /** The children are shown exactly when a user is signed in, the check has finished and it found a subscription. */
  lemma ChildrenOnlyWhenSubscribed(user: Option<User>, loading: bool, subscribed: bool, tier: Option<string>)
    ensures Render(user, loading, subscribed, tier).Children? <==> user.Some? && !loading && subscribed
  {
  }
}
