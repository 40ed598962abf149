/**
 * pages/Profile.tsx: the retention controls, the account deletion check and the manual cleanup
 * confirmation. The profile form's delayed save and the avatar upload are not part of this model.
 */
module ProfilePage {
  import opened Types
  import opened StoreState
  import Store

  const IncorrectPassword := "Incorrect password. Access denied."
  const MasterPassword := "admin123"

  /** The activity `handleRetentionUpdate` logs. */
  function RetentionActivity(enabled: bool, days: RetentionPeriod): (activity: string)
    ensures enabled ==> activity == "Updated Data Retention: Active (" + DaysText(days) + " days)"
    ensures !enabled ==> activity == "Updated Data Retention: Inactive"
  {
    "Updated Data Retention: " + (if enabled then "Active (" + DaysText(days) + " days)" else "Inactive")
  }

  /** `handleRetentionUpdate`: both settings are saved, then one info entry is logged. */
  method HandleRetentionUpdate(st: Store.AdminStore, enabled: bool, days: RetentionPeriod, now: int)
    requires st.Valid()
    modifies st
    ensures st.Model() == Logged(RetentionSet(old(st.Model()), enabled, days), RetentionActivity(enabled, days),
                                 ActorName(old(st.user), "Admin"), Info, now)
    ensures st.Valid()
  {
    var admin := ActorName(st.user, "Admin");
    st.SetRetention(enabled, days);
    st.AddLog(RetentionActivity(enabled, days), admin, Info, now);
  }

  /** The switch: flips the cleanup on or off and keeps the cycle. */
  method ToggleRetention(st: Store.AdminStore, now: int)
    requires st.Valid()
    modifies st
    ensures st.retentionEnabled == !old(st.retentionEnabled) && st.retentionDays == old(st.retentionDays)
    ensures st.Model() == Logged(RetentionSet(old(st.Model()), !old(st.retentionEnabled), old(st.retentionDays)),
                                 RetentionActivity(!old(st.retentionEnabled), old(st.retentionDays)),
                                 ActorName(old(st.user), "Admin"), Info, now)
    ensures st.Valid()
  {
    HandleRetentionUpdate(st, !st.retentionEnabled, st.retentionDays, now);
  }

  /** The cycle selector: sets the number of days and keeps the switch. */
  method SelectRetentionDays(st: Store.AdminStore, days: RetentionPeriod, now: int)
    requires st.Valid()
    modifies st
    ensures st.retentionEnabled == old(st.retentionEnabled) && st.retentionDays == days
    ensures st.Model() == Logged(RetentionSet(old(st.Model()), old(st.retentionEnabled), days),
                                 RetentionActivity(old(st.retentionEnabled), days),
                                 ActorName(old(st.user), "Admin"), Info, now)
    ensures st.Valid()
  {
    HandleRetentionUpdate(st, st.retentionEnabled, days, now);
  }

  /** The retention settings a retention update leaves are read back on the next page load. */
  lemma RetentionUpdateSurvivesReload(s: AdminState, enabled: bool, days: RetentionPeriod, admin: string, now: int, prefersDark: bool)
    ensures var t := Loaded(Logged(RetentionSet(s, enabled, days), RetentionActivity(enabled, days), admin, Info, now).storage, prefersDark);
      t.retentionEnabled == enabled && t.retentionDays == days
  {
  }

  /** Whether `handleDeleteAccount` accepts the password: the master one, or the signed-in user's own. */
  predicate DeletionAccepted(user: Option<AdminUser>, confirmPassword: string) {
    confirmPassword == MasterPassword || (user.Some? && user.value.password == Some(confirmPassword))
  }

  /**
   * `handleDeleteAccount`: the error is cleared first; an accepted password logs out, any other
   * sets the error and changes nothing else.
   */
  method HandleDeleteAccount(st: Store.AdminStore, confirmPassword: string) returns (deleteError: string)
    requires st.Valid()
    modifies st
    ensures DeletionAccepted(old(st.user), confirmPassword) ==> st.Model() == LoggedOut(old(st.Model())) && deleteError == ""
    ensures !DeletionAccepted(old(st.user), confirmPassword) ==> st.Model() == old(st.Model()) && deleteError == IncorrectPassword
    ensures st.isAuthenticated <==> old(st.isAuthenticated) && !DeletionAccepted(old(st.user), confirmPassword)
    ensures st.Valid()
  {
    deleteError := "";
    if confirmPassword == MasterPassword || (st.user.Some? && st.user.value.password == Some(confirmPassword)) {
      st.Logout();
    } else {
      deleteError := IncorrectPassword;
    }
  }

  /**
   * `handleManualCleanup`. The action creator it calls is imported from the store but not exported
   * by it, so the name is bound to `undefined`: calling it after confirmation throws a `TypeError`
   * before anything is dispatched, and the success alert is never reached. Declining does nothing.
   */
  method HandleManualCleanup(st: Store.AdminStore, confirmed: bool) returns (threw: bool, alerted: bool)
    requires st.Valid()
    ensures threw <==> confirmed
    ensures !alerted
    ensures st.Model() == old(st.Model())
  {
    threw, alerted := false, false;
    if confirmed {
      threw := true;
    }
  }
}
