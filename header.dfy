/** The site header: where the dashboard link points and what the account button says. */
module Header {
  import opened Wrappers
  import opened Entities

  /** `localStorage.getItem('userRole') || 'patient'`: a missing or empty entry is a patient. */
  function UserRole(stored: Option<string>): (role: string)
    ensures role != ""
    ensures stored.Some? && stored.value != "" ==> role == stored.value
    ensures stored.None? || stored.value == "" ==> role == "patient"
  {
    OrElse(stored, "patient")
  }

  /** `getDashboardLink`: doctors and admins get their own dashboards, every other stored role
      (including a missing one) the patient dashboard. */
  function DashboardLink(stored: Option<string>): (link: string)
    ensures link == "/doctor-dashboard" <==> stored == Some("doctor")
    ensures link == "/admin-dashboard" <==> stored == Some("admin")
    ensures link == "/dashboard" <==> stored != Some("doctor") && stored != Some("admin")
  {
    var role := UserRole(stored);
    if role == "doctor" then "/doctor-dashboard"
    else if role == "admin" then "/admin-dashboard"
    else "/dashboard"
  }

  /** `member?.profile?.nickname || member?.contact?.firstName || 'Dashboard'` */
  function AccountLabel(m: Option<Member>): (text: string)
    ensures text != ""
    ensures NicknameOf(m).Some? && NicknameOf(m).value != "" ==> text == NicknameOf(m).value
    ensures ((NicknameOf(m).None? || NicknameOf(m).value == "")
             && FirstNameOf(m).Some? && FirstNameOf(m).value != "") ==> text == FirstNameOf(m).value
    ensures ((NicknameOf(m).None? || NicknameOf(m).value == "")
             && (FirstNameOf(m).None? || FirstNameOf(m).value == "")) ==> text == "Dashboard"
  {
    OrElse(NicknameOf(m), OrElse(FirstNameOf(m), "Dashboard"))
  }
}
