/**
 * The login page (components/Auth/LoginPage.tsx): `handleSubmit` as a state
 * machine over `error`, `isLoading` and `showSuccess`, its two delays being
 * the points where a submission waits.
 */
module Login {

  const AdminEmail := "admin@gmail.com"
  const AdminPassword := "admin"
  const InvalidCredentials := "\U{274C} Invalid credentials! Please check your email and password."

  /** The page's own check of the entered credentials. */
  predicate Accepts(email: string, password: string) {
    email == AdminEmail && password == AdminPassword
  }

  datatype Credentials = Credentials(email: string, password: string)

  /** Where a submission waits: after the 1 s delay it checks, after the 1.5 s one it logs in. */
  datatype Submission =
    | NotSubmitting
    | Checking(email: string, password: string)
    | LoggingIn(email: string, password: string)

  /** What the page shows: the success screen, or the form with its error and loading state. */
  datatype Screen = SuccessScreen | FormScreen(error: string, isLoading: bool)

  class LoginPage {
    var email: string
    var password: string
    var showPassword: bool
    var isLoading: bool
    var error: string
    var showSuccess: bool
    /** Where the submission is waiting. */
    var submission: Submission
    /** The calls of `onLogin`, in order. */
    var logins: seq<Credentials>

    /**
     * Loading exactly while a submission waits; logging in only with
     * accepted credentials, after the success screen is up; `onLogin` only
     * ever receives accepted credentials.
     */
    ghost predicate Valid()
      reads this
    {
      && (submission.NotSubmitting? <==> !isLoading)
      && (submission.Checking? ==> error == "" && !showSuccess)
      && (submission.LoggingIn? ==> showSuccess && error == "" && Accepts(submission.email, submission.password))
      && (forall i | 0 <= i < |logins| :: Accepts(logins[i].email, logins[i].password))
    }

    constructor ()
      ensures Valid()
      ensures email == "" && password == "" && !showPassword && !isLoading && error == "" && !showSuccess
      ensures submission == NotSubmitting && logins == []
    {
      email := "";
      password := "";
      showPassword := false;
      isLoading := false;
      error := "";
      showSuccess := false;
      submission := NotSubmitting;
      logins := [];
    }

    method SetEmail(value: string)
      modifies this`email
      ensures email == value
    {
      email := value;
    }

    method SetPassword(value: string)
      modifies this`password
      ensures password == value
    {
      password := value;
    }

    method ToggleShowPassword()
      modifies this`showPassword
      ensures showPassword == !old(showPassword)
    {
      showPassword := !showPassword;
    }

    /**
     * `handleSubmit` up to its first `await`: the error is cleared and the
     * page is loading. The form exists only while the success screen is not
     * shown, and its button is disabled while loading.
     */
    method HandleSubmit()
      requires Valid() && !isLoading && !showSuccess
      modifies this`error, this`isLoading, this`submission
      ensures Valid()
      ensures error == "" && isLoading && submission == Checking(email, password)
    {
      error := "";
      isLoading := true;
      submission := Checking(email, password);
    }

    /**
     * The pending delay ends. After the first, the credentials entered at
     * submission are checked: accepted ones bring up the success screen and
     * wait again; others set the fixed error and end the submission. After
     * the second, `onLogin` is called once and the submission ends. Loading
     * is off whenever a submission ends.
     */
    method DelayEnded()
      requires Valid()
      modifies this`error, this`isLoading, this`showSuccess, this`submission, this`logins
      ensures Valid()
      ensures old(submission).Checking? && Accepts(old(submission).email, old(submission).password) ==>
        showSuccess && isLoading && error == "" && logins == old(logins)
        && submission == LoggingIn(old(submission).email, old(submission).password)
      ensures old(submission).Checking? && !Accepts(old(submission).email, old(submission).password) ==>
        !showSuccess && !isLoading && error == InvalidCredentials && logins == old(logins)
        && submission == NotSubmitting
      ensures old(submission).LoggingIn? ==>
        showSuccess && !isLoading && error == old(error) && submission == NotSubmitting
        && logins == old(logins) + [Credentials(old(submission).email, old(submission).password)]
      ensures old(submission).NotSubmitting? ==>
        error == old(error) && showSuccess == old(showSuccess) && !isLoading && logins == old(logins)
        && submission == NotSubmitting
    {
      match submission
      case Checking(e, p) =>
        if e == AdminEmail && p == AdminPassword {
          showSuccess := true;
          submission := LoggingIn(e, p);
        } else {
          error := InvalidCredentials;
          isLoading := false;
          submission := NotSubmitting;
        }
      case LoggingIn(e, p) =>
        logins := logins + [Credentials(e, p)];
        isLoading := false;
        submission := NotSubmitting;
      case NotSubmitting =>
    }

    /** While the success screen is up, it is all the page shows. */
    function Render(): (s: Screen)
      reads this
      ensures s == SuccessScreen <==> showSuccess
      ensures s.FormScreen? ==> s.error == error && s.isLoading == isLoading
    {
      if showSuccess then SuccessScreen else FormScreen(error, isLoading)
    }
  }

  /**
   * A whole submission: the success screen, no error and one `onLogin` call
   * exactly for the accepted credentials; the entered fields stay as typed.
   */
  method Submit(page: LoginPage)
    requires page.Valid() && !page.isLoading && !page.showSuccess
    modifies page`error, page`isLoading, page`showSuccess, page`submission, page`logins
    ensures page.Valid() && !page.isLoading && page.submission == NotSubmitting
    ensures page.email == old(page.email) && page.password == old(page.password)
    ensures page.showPassword == old(page.showPassword)
    ensures Accepts(old(page.email), old(page.password)) ==>
      page.showSuccess && page.error == ""
      && page.logins == old(page.logins) + [Credentials(old(page.email), old(page.password))]
    ensures !Accepts(old(page.email), old(page.password)) ==>
      !page.showSuccess && page.error == InvalidCredentials && page.logins == old(page.logins)
  {
    page.HandleSubmit();
    page.DelayEnded();
    if page.submission.LoggingIn? {
      page.DelayEnded();
    }
  }
}
