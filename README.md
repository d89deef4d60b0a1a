# Sign-up validation and session gate of the lesson app

A Dafny model of the two screens of the lesson-8 Android app that carry
rules:

- **Sign-up screen** (`SignUpActivity`): the email format check
  (`isValidEmail`, a whole-string match against
  `[a-zA-Z0-9._-]+@[a-z]+\.+[a-z]+`), the password strength check
  (`isPasswordStrong`, more than six characters), and the sign-up button's
  handler, which checks emptiness, then the format, then the strength,
  and only then asks the identity provider to create the account; the
  provider's answer picks the message and whether the screen moves on to
  the login screen.
- **Home screen** (`MainActivity`): on entry, a visitor with no current
  user is sent to the login screen and the screen finishes before the
  greeting and the buttons are set up; a signed-in user is greeted with `Welcome, ` and the
  email; the settings button opens the settings screen; the logout button
  signs out, then opens the login screen and finishes.

Files:

- `common.dfy` (`Common`): Kotlin's nullable values as `Option`, the
  target screens, and how a string template renders `null`.
- `credentials.dfy` (`Credentials`): the regular expression read as a
  split of the string into its five runs (`IsValidEmail`), a
  left-to-right scanner proved equal to it on every string (`ScanEmail`),
  the password rule, and what the accepted language does and does not
  contain.
- `signup.dfy` (`SignUp`): the order of the checks (`Validate`), the
  provider's answer mapped to a message and a destination
  (`OnCreateComplete`), the whole handler as a function (`SignUpClick`)
  and as the guarded, early-exit method the screen runs
  (`HandleSignUpClick`).
- `home.dfy` (`Home`): the provider's session as a class holding the
  current user, and the home screen as a class whose methods record the
  side effects (sign-out, start of an activity, `finish()`) in the order
  performed.

The identity provider is not called: the outcome of account creation is
an input (`AuthResult`), and the current user is a field that sign-out
clears. A toast, an intent and `finish()` are values of the outcome or
entries of the effect log.

The email rule is modelled as the expression reads: after the `@` come
lower-case letters, then one or more dots, then a single run of
lower-case letters. So `a@b..c` is accepted and `a@b.c.d` is rejected; a
reading with repeatable `.letters` groups would accept the latter, and
the code does not.

## Model

| member | source | states |
|---|---|---|
| Credentials.ScanEmail | lesson_8/starter/app/src/main/java/com/example/lesson3/SignUpActivity.kt:68-70 | the scanner accepts a string exactly when the whole string splits as one or more of `[a-zA-Z0-9._-]`, `@`, one or more `a`-`z`, one or more dots, one or more `a`-`z` |
| Credentials.SplitUnique | lesson_8/starter/app/src/main/java/com/example/lesson3/SignUpActivity.kt:69 | an accepted email splits into those five runs in only one way |
| Credentials.SplitAtIsOnlyAt | lesson_8/starter/app/src/main/java/com/example/lesson3/SignUpActivity.kt:69 | the `@` of a match is the only `@` in the string |
| Credentials.ValidEmailShape | lesson_8/starter/app/src/main/java/com/example/lesson3/SignUpActivity.kt:69 | an accepted email contains exactly one `@` and is at least five characters long |
| Credentials.DomainRejectsOtherChars | lesson_8/starter/app/src/main/java/com/example/lesson3/SignUpActivity.kt:69 | any character after an `@` that is neither `a`-`z` nor a dot (a digit, an upper-case letter, `_`, `-`) makes the email invalid |
| Credentials.SecondSegmentRejected | lesson_8/starter/app/src/main/java/com/example/lesson3/SignUpActivity.kt:69 | only one letter run may follow the dots: an accepted email followed by `.` and anything is rejected |
| Credentials.NoAtRejected | lesson_8/starter/app/src/main/java/com/example/lesson3/SignUpActivity.kt:69 | a string without `@` is rejected |
| Credentials.EmailExamples | lesson_8/starter/app/src/main/java/com/example/lesson3/SignUpActivity.kt:68-70 | `a@b.c`, `a@b..c`, `x@a.b`, `x@a..b`, `user@example.com` are accepted; `a@b.c.d`, `x@a.b.c`, `user@ex1ample.com`, `User@Example.com`, `bad-email` are rejected |
| Credentials.PasswordExamples | lesson_8/starter/app/src/main/java/com/example/lesson3/SignUpActivity.kt:72-74 | a seven-character password is strong; six characters and the empty password are not |
| SignUp.Validate | lesson_8/starter/app/src/main/java/com/example/lesson3/SignUpActivity.kt:36-44 | the verdict is "empty" iff a field is empty, "invalid email" iff both are non-empty and the email does not match, "weak password" iff both are non-empty, the email matches and the password is not strong, "valid" iff all checks pass |
| SignUp.HandleSignUpClick | lesson_8/starter/app/src/main/java/com/example/lesson3/SignUpActivity.kt:32-60 | the handler, run with early exits and the scanner, yields exactly the outcome of the checks in order followed by the provider's answer |
| SignUp.EmptyFieldsFirst | lesson_8/starter/app/src/main/java/com/example/lesson3/SignUpActivity.kt:36-59 | with an empty field the toast is `Email and Password cannot be empty`, no creation is requested, no screen is started, whatever the validators would say |
| SignUp.WhitespaceIsNotEmpty | lesson_8/starter/app/src/main/java/com/example/lesson3/SignUpActivity.kt:36 | whitespace is not empty: a blank email reaches the format check, and a seven-space password passes |
| SignUp.FormatCheckedBeforeStrength | lesson_8/starter/app/src/main/java/com/example/lesson3/SignUpActivity.kt:37-44 | a non-empty badly formatted email gives `Invalid Email Format` whatever the non-empty password |
| SignUp.WeakPasswordReported | lesson_8/starter/app/src/main/java/com/example/lesson3/SignUpActivity.kt:41-44 | a well-formed email with a password of 1 to 6 characters gives `Password must be more than 6 characters` and no creation |
| SignUp.CreationRequestedIff | lesson_8/starter/app/src/main/java/com/example/lesson3/SignUpActivity.kt:36-46 | creation is requested iff both fields are non-empty and both checks pass; otherwise the provider's answer does not affect the outcome |
| SignUp.CompletionOutcome | lesson_8/starter/app/src/main/java/com/example/lesson3/SignUpActivity.kt:47-55 | success gives `Account created successfully!`, the login screen and finishing; failure gives `Registration Failed: ` followed by exactly the provider's message (`null` when absent), no navigation, no finishing |
| SignUp.NavigationOnlyAfterCreation | lesson_8/starter/app/src/main/java/com/example/lesson3/SignUpActivity.kt:47-55 | a screen is started iff creation was requested and succeeded, and the screen finishes iff it goes to the login screen |
| SignUp.SignUpExamples | lesson_8/starter/app/src/main/java/com/example/lesson3/SignUpActivity.kt:36-59 | the verdicts for empty fields, `bademail`, a five- and a six-character password and a good pair, and the failure text `Registration Failed: null` |
| Home.WelcomeTextShowsEmail | lesson_8/starter/app/src/main/java/com/example/lesson3/MainActivity.kt:39-40 | the greeting is `Welcome, ` followed by exactly the user's email |
| Home.AuthState.SignOut | lesson_8/starter/app/src/main/java/com/example/lesson3/MainActivity.kt:52 | afterwards nobody is signed in, whatever the state before, so a second sign-out changes nothing |
| Home.MainActivity.OnCreate | lesson_8/starter/app/src/main/java/com/example/lesson3/MainActivity.kt:31-55 | with no current user: the login screen is started, the screen finishes, and no greeting or button handler is set; with a user: the greeting is `Welcome, ` + email, the buttons are wired, nothing is started and the screen does not finish; the session is unchanged |
| Home.MainActivity.OnSettingsClick | lesson_8/starter/app/src/main/java/com/example/lesson3/MainActivity.kt:43-47 | the settings screen is started and the session is unchanged |
| Home.MainActivity.OnLogoutClick | lesson_8/starter/app/src/main/java/com/example/lesson3/MainActivity.kt:51-55 | the user is signed out, and the effects are, in order, sign-out, start of the login screen, finish |
| Home.ReenterAfterLogout | lesson_8/starter/app/src/main/java/com/example/lesson3/MainActivity.kt:31-55 | entering the home screen again after a logout always takes the redirect branch |

## Left out

- Window insets, edge-to-edge display, view binding and layout inflation: user-interface plumbing with no rules.
- The toast, the intent, `startActivity` and `finish()` as framework calls: they appear only as outcome values and effect-log entries.
- The identity provider's client (`getInstance`, `createUserWithEmailAndPassword` with its asynchronous completion listener, the real `signOut` and `currentUser`): a foreign, asynchronous service; its answer and its current user are inputs or state of the model. When the listener runs, and whether the button can be pressed again before it does, is not modelled.
- The sign-up screen's login link (`SignUpActivity.kt` lines 62-65): it only starts the login screen, with no check.
- The login, settings and profile screens, and the lesson-5 and lesson-7 screens: they are not part of this model.
- Credentials.IsPasswordStrong: counts Dafny characters, while Kotlin's `length` counts UTF-16 code units, so a password containing characters outside the Basic Multilingual Plane is measured shorter here than on the device.
- Home.MainActivity.OnCreate: the current user is read once; a change of session between the null check and the greeting is not modelled.
