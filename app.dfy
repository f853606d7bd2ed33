/**
 * The top-level component (App.tsx): the session state its handlers update,
 * the tab routing of `renderContent` over the navigation ids
 * (components/Layout/Navigation.tsx) and the authentication gate.
 */
module App {
  import opened Wrappers
  import opened Types

  /** `handleLogin`'s check. */
  predicate AcceptsCredentials(email: string, password: string) {
    email == "admin@gmail.com" && password == "admin"
  }

  /** The ids of the navigation items, in menu order. */
  const NavigationIds: seq<string> := ["dashboard", "verify", "database", "institutions", "analytics", "alerts", "settings"]

  /** What `renderContent` shows; on the verify tab, whether the result card is shown below the upload panel. */
  datatype Content =
    | DashboardContent
    | VerifyContent(showsResults: bool)
    | DatabaseContent
    | InstitutionsContent
    | AnalyticsContent
    | AlertsContent
    | SettingsContent
    | NoContent

  /** `renderContent`: one case per navigation id, nothing for any other tab. */
  function ContentFor(tab: string, hasResult: bool, hasDetails: bool): (c: Content)
    ensures c == NoContent <==> tab !in NavigationIds
    ensures c.VerifyContent? <==> tab == "verify"
    ensures c.VerifyContent? ==> (c.showsResults <==> hasResult && hasDetails)
  {
    if tab == "dashboard" then DashboardContent
    else if tab == "verify" then VerifyContent(hasResult && hasDetails)
    else if tab == "institutions" then InstitutionsContent
    else if tab == "analytics" then AnalyticsContent
    else if tab == "database" then DatabaseContent
    else if tab == "alerts" then AlertsContent
    else if tab == "settings" then SettingsContent
    else NoContent
  }

  /** Each navigation id has a case of its own. */
  lemma {:induction false} RoutesAreDistinct(i: nat, j: nat, hasResult: bool, hasDetails: bool)
    requires i < j < |NavigationIds|
    ensures ContentFor(NavigationIds[i], hasResult, hasDetails) != ContentFor(NavigationIds[j], hasResult, hasDetails)
  {
    var a, b := NavigationIds[i], NavigationIds[j];
    assert a != b by {
      assert |NavigationIds[0]| == 9 && |NavigationIds[1]| == 6 && |NavigationIds[2]| == 8 && |NavigationIds[3]| == 12;
      assert |NavigationIds[4]| == 9 && |NavigationIds[5]| == 6 && |NavigationIds[6]| == 8;
      assert NavigationIds[0][0] == 'd' && NavigationIds[4][0] == 'a';
      assert NavigationIds[1][0] == 'v' && NavigationIds[5][0] == 'a';
      assert NavigationIds[2][1] == 'a' && NavigationIds[6][1] == 'e';
    }
  }

  /** What the app shows: the login page, or the shell around the active tab's content. */
  datatype Screen = LoginScreen | MainScreen(tab: string, content: Content)

  class App {
    var isAuthenticated: bool
    var activeTab: string
    var uploadedFile: Option<File>
    var verificationResult: Option<VerificationResult>
    var extractedData: Option<CertificateDetails>

    constructor ()
      ensures !isAuthenticated && activeTab == "dashboard"
      ensures uploadedFile == None && verificationResult == None && extractedData == None
    {
      isAuthenticated := false;
      activeTab := "dashboard";
      uploadedFile := None;
      verificationResult := None;
      extractedData := None;
    }

    /** `handleLogin`: authenticates on the fixed credentials; otherwise nothing changes. */
    method HandleLogin(email: string, password: string)
      modifies this`isAuthenticated
      ensures isAuthenticated == (old(isAuthenticated) || AcceptsCredentials(email, password))
    {
      if email == "admin@gmail.com" && password == "admin" {
        isAuthenticated := true;
      }
    }

    /** `handleLogout`: back to the initial state. */
    method HandleLogout()
      modifies this
      ensures !isAuthenticated && activeTab == "dashboard"
      ensures uploadedFile == None && verificationResult == None && extractedData == None
    {
      isAuthenticated := false;
      activeTab := "dashboard";
      uploadedFile := None;
      verificationResult := None;
      extractedData := None;
    }

    /** `handleFileUpload`: only the file changes. */
    method HandleFileUpload(file: File)
      modifies this`uploadedFile
      ensures uploadedFile == Some(file)
    {
      uploadedFile := Some(file);
    }

    /** `handleVerificationComplete`: only the result and the details change. */
    method HandleVerificationComplete(result: VerificationResult, details: CertificateDetails)
      modifies this`verificationResult, this`extractedData
      ensures verificationResult == Some(result) && extractedData == Some(details)
    {
      verificationResult := Some(result);
      extractedData := Some(details);
    }

    /** The navigation's `onTabChange`. */
    method SetActiveTab(tab: string)
      modifies this`activeTab
      ensures activeTab == tab
    {
      activeTab := tab;
    }

    /** The component's output: the login page unless authenticated, whatever the tab. */
    function Render(): (s: Screen)
      reads this
      ensures s == LoginScreen <==> !isAuthenticated
      ensures s.MainScreen? ==> s.tab == activeTab
      ensures s.MainScreen? ==> s.content == ContentFor(activeTab, verificationResult.Some?, extractedData.Some?)
    {
      if !isAuthenticated then LoginScreen
      else MainScreen(activeTab, ContentFor(activeTab, verificationResult.Some?, extractedData.Some?))
    }
  }

  /** After a logout the app shows the login page, and logging in again starts on the dashboard. */
  method LogoutThenLogin(app: App)
    modifies app
    ensures app.Render() == MainScreen("dashboard", DashboardContent)
    ensures app.uploadedFile == None && app.verificationResult == None && app.extractedData == None
  {
    app.HandleLogout();
    assert app.Render() == LoginScreen;
    app.HandleLogin("admin@gmail.com", "admin");
  }
}
