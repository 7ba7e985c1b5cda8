/** `ProtectedRoute`: the guard in front of the home page, read afresh from
    storage on every render, and how it agrees (or not) with the session
    store. */
module ProtectedRoute {
  import opened Js
  import opened LocalStorage
  import opened AuthResponseModel
  import HomePage

  /** What the route renders: its children, or a redirect. */
  datatype Decision = Children | Navigate(to: string, replace: bool)

  /** The guard's test: `localStorage.getItem('isAuthenticated') === 'true'`. */
  predicate Allowed(st: Storage) {
    GetItem(st, FlagKey) == Str("true")
  }

  /** `ProtectedRoute({ children })`: children exactly when the flag is the
      string "true"; an absent flag or any other value redirects to the
      login page, replacing the history entry. */
  function Guard(st: Storage): (r: Decision)
    ensures r == Children <==> FlagKey in st && st[FlagKey] == "true"
    ensures r != Children ==> r == Navigate(HomePage.LoginPath, true)
  {
    if !Allowed(st) then Navigate(HomePage.LoginPath, true) else Children
  }

  // ---------------------------------------------------------------------------
  // The guard against the session store

  /** The decision reads the flag and nothing else: two storages that agree
      on it get the same decision, whatever the token says. */
  lemma OnlyTheFlagMatters(st1: Storage, st2: Storage)
    requires (FlagKey in st1) == (FlagKey in st2)
    requires FlagKey in st1 ==> st1[FlagKey] == st2[FlagKey]
    ensures Guard(st1) == Guard(st2)
  {
  }

  /** Saving a session opens the route, even when the token was missing
      from the reply. */
  lemma AllowsAfterSave(m: AuthResponseModel.AuthResponse, st: Storage)
    ensures Guard(AuthResponseModel.Save(m, st)) == Children
  {
  }

  /** Clearing the session closes the route. */
  lemma DeniesAfterClear(st: Storage)
    ensures Guard(AuthResponseModel.Clear(st)) == Navigate(HomePage.LoginPath, true)
  {
  }

  /** The home page's logout closes the route but leaves the token, user
      name and role in place, so the session store still reports the user
      as authenticated and still loads them. */
  lemma HomeLogoutLeavesSessionBehind(m: AuthResponseModel.AuthResponse, st: Storage)
    ensures var after := HomePage.Logout(AuthResponseModel.Save(m, st)).0;
      && Guard(after) == Navigate(HomePage.LoginPath, true)
      && AuthResponseModel.IsAuthenticated(after)
      && AuthResponseModel.GetToken(after) == Str(ToStr(m.token))
      && AuthResponseModel.Load(after) == AuthResponseModel.Load(AuthResponseModel.Save(m, st))
  {
    var saved := AuthResponseModel.Save(m, st);
    var after := HomePage.Logout(saved).0;
    assert after.Keys == saved.Keys - {FlagKey};
    assert after[TokenKey] == saved[TokenKey];
    assert after["username"] == saved["username"];
    assert after["userRole"] == saved["userRole"];
  }

  /** The two notions of "logged in" disagree in both directions: a flag
      without a token opens the route although the store says no one is
      authenticated, and a token without the flag is the reverse. */
  lemma GuardAndStoreDisagree(st: Storage)
    ensures FlagKey in st && st[FlagKey] == "true" && TokenKey !in st ==>
              Guard(st) == Children && !AuthResponseModel.IsAuthenticated(st)
    ensures TokenKey in st && (FlagKey !in st || st[FlagKey] != "true") ==>
              Guard(st) == Navigate(HomePage.LoginPath, true) && AuthResponseModel.IsAuthenticated(st)
  {
  }

  /** Both disagreements happen: a store holding only the flag, and one
      holding only a token. */
  lemma DisagreementsOccur()
    ensures var flagOnly := map[FlagKey := "true"];
      Guard(flagOnly) == Children && !AuthResponseModel.IsAuthenticated(flagOnly)
    ensures var tokenOnly := map[TokenKey := "t"];
      Guard(tokenOnly) != Children && AuthResponseModel.IsAuthenticated(tokenOnly)
  {
    GuardAndStoreDisagree(map[FlagKey := "true"]);
    GuardAndStoreDisagree(map[TokenKey := "t"]);
  }
}
