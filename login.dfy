/** The login screen: two text fields and a button that shows a spinner while
    a simulated sign-in is pending. The delayed completion of the sign-in is a
    separate event, `Complete`. */
module Login {
  import opened Strings

  /** The button is enabled when nothing is loading and both fields hold a
      visible character. */
  function ButtonEnabled(isLoading: bool, username: string, password: string): (r: bool)
    ensures r <==> !isLoading && (exists i :: 0 <= i < |username| && !IsWhitespace(username[i]))
                              && (exists j :: 0 <= j < |password| && !IsWhitespace(password[j]))
  {
    !isLoading && !IsBlank(username) && !IsBlank(password)
  }

  /** `username`, `password` and `isLoading`; `pending` counts sign-ins that
      were launched and have not completed, `successes` the success signals
      handed to the navigation. */
  class LoginScreen {
    var username: string
    var password: string
    var isLoading: bool
    var pending: nat
    var successes: nat

    /** The spinner shows exactly while a sign-in is pending, and at most one
        is pending. */
    ghost predicate Valid()
      reads this
    {
      (isLoading <==> pending > 0) && pending <= 1
    }

    function Enabled(): bool
      reads this
    {
      ButtonEnabled(isLoading, username, password)
    }

    constructor()
      ensures Valid()
      ensures username == "" && password == "" && !isLoading && pending == 0 && successes == 0
    {
      username := "";
      password := "";
      isLoading := false;
      pending := 0;
      successes := 0;
    }

    /** The username field stores the text as typed. */
    method TypeUsername(t: string)
      modifies this
      ensures username == t && password == old(password) && isLoading == old(isLoading)
      ensures pending == old(pending) && successes == old(successes)
    {
      username := t;
    }

    /** The password field stores the text as typed. */
    method TypePassword(t: string)
      modifies this
      ensures password == t && username == old(username) && isLoading == old(isLoading)
      ensures pending == old(pending) && successes == old(successes)
    {
      password := t;
    }

    /** The click handler: loading starts; with both fields filled in a
        sign-in is launched, otherwise loading stops at once. */
    method Click()
      modifies this
      ensures username == old(username) && password == old(password) && successes == old(successes)
      ensures !IsBlank(username) && !IsBlank(password) ==> isLoading && pending == old(pending) + 1
      ensures IsBlank(username) || IsBlank(password) ==> !isLoading && pending == old(pending)
      ensures old(Valid()) && old(Enabled()) ==> Valid()
    {
      isLoading := true;
      if !IsBlank(username) && !IsBlank(password) {
        pending := pending + 1;
      } else {
        isLoading := false;
      }
    }

    /** The delayed end of a pending sign-in: loading stops and success is
        signalled once. */
    method Complete()
      requires pending > 0
      modifies this
      ensures !isLoading && pending == old(pending) - 1 && successes == old(successes) + 1
      ensures username == old(username) && password == old(password)
      ensures old(Valid()) ==> Valid() && pending == 0
    {
      isLoading := false;
      pending := pending - 1;
      successes := successes + 1;
    }
  }

  /** Through the enabled button, a click with a blank field is impossible,
      and a click that could happen leads to exactly one success. */
  method SignInOnce(screen: LoginScreen)
    requires screen.Valid() && screen.Enabled()
    modifies screen
    ensures screen.Valid() && !screen.isLoading && screen.pending == 0
    ensures screen.successes == old(screen.successes) + 1
    ensures !screen.Enabled() <==> IsBlank(screen.username) || IsBlank(screen.password)
  {
    screen.Click();
    assert screen.isLoading && !screen.Enabled();
    screen.Complete();
  }

  /** A blank field keeps the button disabled whatever else holds. */
  lemma BlankDisables(isLoading: bool, username: string, password: string)
    requires IsBlank(username) || IsBlank(password)
    ensures !ButtonEnabled(isLoading, username, password)
  {
  }
}
