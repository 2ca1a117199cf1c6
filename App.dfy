/**
 * The application shell: which top-level view is showing, which dashboard
 * mode is active, and the three modal flags the header's menu raises.
 */
module App {
  import opened Header

  datatype AppState = Login | Registration | Dashboard

  class AppShell {
    var appState: AppState
    var mode: Mode
    var showProfileModal: bool
    var showSettingsModal: bool
    var showFeedbackModal: bool

    constructor ()
      ensures appState == Login && mode == Professional
      ensures !showProfileModal && !showSettingsModal && !showFeedbackModal
    {
      appState := Login;
      mode := Professional;
      showProfileModal := false;
      showSettingsModal := false;
      showFeedbackModal := false;
    }

    /** `handleLogin`: straight to the dashboard. */
    method HandleLogin()
      modifies this
      ensures appState == Dashboard
      ensures mode == old(mode)
      ensures showProfileModal == old(showProfileModal) && showSettingsModal == old(showSettingsModal)
      ensures showFeedbackModal == old(showFeedbackModal)
    {
      appState := Dashboard;
    }

    /** `handleSignup`: to the registration form. */
    method HandleSignup()
      modifies this
      ensures appState == Registration
      ensures mode == old(mode)
      ensures showProfileModal == old(showProfileModal) && showSettingsModal == old(showSettingsModal)
      ensures showFeedbackModal == old(showFeedbackModal)
    {
      appState := Registration;
    }

    /** `handleRegistrationComplete`: to the dashboard. */
    method HandleRegistrationComplete()
      modifies this
      ensures appState == Dashboard
      ensures mode == old(mode)
      ensures showProfileModal == old(showProfileModal) && showSettingsModal == old(showSettingsModal)
      ensures showFeedbackModal == old(showFeedbackModal)
    {
      appState := Dashboard;
    }

    /** `handleSignOut`: back to login in professional mode; the modal flags stay as they are. */
    method HandleSignOut()
      modifies this
      ensures appState == Login && mode == Professional
      ensures showProfileModal == old(showProfileModal) && showSettingsModal == old(showSettingsModal)
      ensures showFeedbackModal == old(showFeedbackModal)
    {
      appState := Login;
      mode := Professional;
    }

    /** The header's `onModeChange`: only the mode changes. */
    method SetMode(m: Mode)
      modifies this
      ensures mode == m
      ensures appState == old(appState)
      ensures showProfileModal == old(showProfileModal) && showSettingsModal == old(showSettingsModal)
      ensures showFeedbackModal == old(showFeedbackModal)
    {
      mode := m;
    }

    /** The header's `onProfileClick`. */
    method OpenProfile()
      modifies this
      ensures showProfileModal
      ensures appState == old(appState) && mode == old(mode)
      ensures showSettingsModal == old(showSettingsModal) && showFeedbackModal == old(showFeedbackModal)
    {
      showProfileModal := true;
    }

    /** The header's `onSettingsClick`. */
    method OpenSettings()
      modifies this
      ensures showSettingsModal
      ensures appState == old(appState) && mode == old(mode)
      ensures showProfileModal == old(showProfileModal) && showFeedbackModal == old(showFeedbackModal)
    {
      showSettingsModal := true;
    }

    /** The header's `onFeedbackClick`. */
    method OpenFeedback()
      modifies this
      ensures showFeedbackModal
      ensures appState == old(appState) && mode == old(mode)
      ensures showProfileModal == old(showProfileModal) && showSettingsModal == old(showSettingsModal)
    {
      showFeedbackModal := true;
    }
  }

  /**
   * A session: sign up, finish registering, switch to social mode, sign out.
   * Signing out returns to login and resets the mode to professional.
   */
  method SessionRoundTrip() returns (afterRegistration: AppState, afterSignOut: AppState, modeAfterSignOut: Mode)
    ensures afterRegistration == Dashboard
    ensures afterSignOut == Login && modeAfterSignOut == Professional
  {
    var app := new AppShell();
    app.HandleSignup();
    app.HandleRegistrationComplete();
    afterRegistration := app.appState;
    app.SetMode(Social);
    app.HandleSignOut();
    afterSignOut, modeAfterSignOut := app.appState, app.mode;
  }
}
