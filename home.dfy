/**
 * The home screen: on entry it sends a visitor who is not signed in to the
 * login screen; otherwise it greets the signed-in user by email and wires
 * a settings button and a logout button.
 *
 * `AuthState` stands for the identity provider's client object: all the
 * screen uses of it is the current user and signing out, which clears
 * that user. Starting an activity, `finish()` and signing out are
 * recorded, in the order performed, in the screen's `effects`.
 */
module Home {
  import opened Common

  /** The signed-in user; the provider may not know an email for it. */
  datatype User = User(email: Option<string>)

  /** A side effect of the home screen, as it is performed. */
  datatype Effect = SignedOut | StartActivity(target: Screen) | Finish

  const WelcomePrefix: string := "Welcome, "

  /** The greeting for a signed-in user: its email, or `null` when it has none. */
  function WelcomeText(user: User): string {
    WelcomePrefix + NullableText(user.email)
  }

  /** The greeting is the fixed prefix followed by exactly the user's email. */
  lemma WelcomeTextShowsEmail(user: User, email: string)
    requires user.email == Some(email)
    ensures |WelcomeText(user)| == |WelcomePrefix| + |email|
    ensures WelcomeText(user)[..|WelcomePrefix|] == WelcomePrefix
    ensures WelcomeText(user)[|WelcomePrefix|..] == email
  {
  }

  /** The identity provider's session: who, if anyone, is signed in. */
  class AuthState {
    var currentUser: Option<User>

    constructor (user: Option<User>)
      ensures currentUser == user
    {
      currentUser := user;
    }

    /** Signs the current user out; doing it again changes nothing. */
    method SignOut()
      modifies this
      ensures currentUser == None
    {
      currentUser := None;
    }
  }

  class MainActivity {
    const auth: AuthState
    /** The text of the welcome label, once set. */
    var welcomeText: Option<string>
    /** Whether the settings and logout buttons have their click handlers. */
    var buttonsWired: bool
    var finished: bool
    /** The side effects performed so far, oldest first. */
    var effects: seq<Effect>

    /**
     * The screen is finished exactly when it has called `finish()`, and
     * its buttons are wired only once the greeting is shown.
     */
    ghost predicate Valid()
      reads this
    {
      && (finished <==> Finish in effects)
      && (buttonsWired ==> welcomeText.Some?)
    }

    constructor (auth: AuthState)
      ensures Valid()
      ensures this.auth == auth
      ensures welcomeText == None && !buttonsWired && !finished && effects == []
    {
      this.auth := auth;
      welcomeText, buttonsWired, finished, effects := None, false, false, [];
    }

    /**
     * Entry: with nobody signed in, start the login screen, finish and
     * stop before the greeting and the buttons are set up; otherwise show
     * the greeting and wire the buttons, with no navigation.
     */
    method OnCreate()
      requires Valid() && effects == [] && welcomeText == None && !buttonsWired
      modifies this
      ensures Valid()
      ensures auth.currentUser == old(auth.currentUser)
      ensures auth.currentUser.None? ==>
        && effects == [StartActivity(Login), Finish] && finished
        && welcomeText == None && !buttonsWired
      ensures auth.currentUser.Some? ==>
        && welcomeText == Some(WelcomeText(auth.currentUser.value))
        && buttonsWired && !finished && effects == []
    {
      if auth.currentUser == None {
        effects := effects + [StartActivity(Login)];
        effects := effects + [Finish];
        finished := true;
        return;
      }
      welcomeText := Some(WelcomeText(auth.currentUser.value));
      buttonsWired := true;
    }

    /** The settings button: start the settings screen; the session is untouched. */
    method OnSettingsClick()
      requires Valid() && buttonsWired
      modifies this`effects
      ensures Valid()
      ensures effects == old(effects) + [StartActivity(Settings)]
      ensures auth.currentUser == old(auth.currentUser)
    {
      effects := effects + [StartActivity(Settings)];
    }

    /**
     * The logout button: sign out first, then start the login screen and
     * finish.
     */
    method OnLogoutClick()
      requires Valid() && buttonsWired
      modifies this`effects, this`finished, auth
      ensures Valid()
      ensures auth.currentUser == None
      ensures effects == old(effects) + [SignedOut, StartActivity(Login), Finish]
      ensures finished && welcomeText == old(welcomeText) && buttonsWired
    {
      auth.SignOut();
      effects := effects + [SignedOut];
      effects := effects + [StartActivity(Login)];
      effects := effects + [Finish];
      finished := true;
    }
  }

  /**
   * After a logout, entering the home screen again (a new instance over
   * the same session) always takes the redirect branch.
   */
  method ReenterAfterLogout(home: MainActivity) returns (again: MainActivity)
    requires home.Valid() && home.buttonsWired
    modifies home, home.auth
    ensures fresh(again) && again.auth == home.auth
    ensures again.auth.currentUser == None
    ensures again.effects == [StartActivity(Login), Finish] && again.finished
    ensures again.welcomeText == None && !again.buttonsWired
  {
    home.OnLogoutClick();
    again := new MainActivity(home.auth);
    again.OnCreate();
  }
}
