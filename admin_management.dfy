/** The admin management page: form validation, the form-to-payload mapping, the
    search and role filter, and the page state its handlers update (`admins`, `metrics`,
    `loading`, `error`, `deletingId`, the form and the modal).

    Backend calls, `window.confirm` and toasts are not performed: each handler is given
    what the calls it makes would have produced (a value, or the message of the error
    they throw) and whether the confirmation was accepted; it records the calls it issues
    in `calls` and the notifications it raises in `toasts`. */
module AdminManagement {
  import opened Common

  /** An admin as the backend lists it (the fields the page reads). */
  datatype BackendAdmin = BackendAdmin(
    id: string, username: string, fullName: Option<string>, email: string,
    role: string, status: string, lastLogin: Option<string>)

  /** An admin as the page holds it. */
  datatype Admin = Admin(
    id: string, name: string, email: string, role: string, status: string, lastLogin: Option<string>)

  datatype Metrics = Metrics(totalAdmins: int, activeAdmins: int, subAdmins: int, analysts: int)

  const ZeroMetrics := Metrics(0, 0, 0, 0)

  datatype AdminFormData = AdminFormData(name: string, email: string, password: string, role: string)

  const EmptyForm := AdminFormData("", "", "", "Analyst")

  /** What create and update send: the form without its `name` key, which becomes both
      `username` and `full_name`. */
  datatype Payload = Payload(username: string, fullName: string, email: string, password: string, role: string)

  datatype AdminCall =
    | ListAdmins
    | GetMetrics
    | Create(payload: Payload)
    | Update(id: string, payload: Payload)
    | Delete(id: string)
    | ToggleStatusCall(id: string)

  datatype Toast = ToastSuccess(message: string) | ToastError(message: string)

  /** What the joint fetch of the list and the metrics produced. */
  type FetchOutcome = Result<(seq<BackendAdmin>, Metrics), string>

  const NameRequired := "Name is required"
  const EmailRequired := "Email is required"
  const PasswordRequired := "Password is required"
  const RoleRequired := "Role is required"

  // ----- pure parts -----

  /** `validateForm`: the first of name, email, password (when creating) and role that
      is empty decides the message; None when none is. */
  function ValidateForm(form: AdminFormData, editing: bool): (r: Option<string>)
    ensures r.None? <==> Truthy(form.name) && Truthy(form.email)
                         && (editing || Truthy(form.password)) && Truthy(form.role)
    ensures r == Some(NameRequired) <==> !Truthy(form.name)
    ensures r == Some(EmailRequired) <==> Truthy(form.name) && !Truthy(form.email)
    ensures r == Some(PasswordRequired) <==>
              Truthy(form.name) && Truthy(form.email) && !editing && !Truthy(form.password)
    ensures r == Some(RoleRequired) <==>
              Truthy(form.name) && Truthy(form.email) && (editing || Truthy(form.password))
              && !Truthy(form.role)
  {
    if !Truthy(form.name) then Some(NameRequired)
    else if !Truthy(form.email) then Some(EmailRequired)
    else if !editing && !Truthy(form.password) then Some(PasswordRequired)
    else if !Truthy(form.role) then Some(RoleRequired)
    else None
  }

  /** When editing, the password plays no part in validation: an empty one passes. */
  lemma EditingIgnoresPassword(form: AdminFormData, password: string)
    ensures ValidateForm(form.(password := password), true) == ValidateForm(form, true)
    ensures ValidateForm(form.(password := ""), true).None? <==>
              Truthy(form.name) && Truthy(form.email) && Truthy(form.role)
  {
  }

  /** `{ ...formData, username: formData.name, full_name: formData.name }` without `name`. */
  function ToPayload(form: AdminFormData): (p: Payload)
    ensures p.username == form.name && p.fullName == form.name
    ensures p.email == form.email && p.password == form.password && p.role == form.role
  {
    Payload(form.name, form.name, form.email, form.password, form.role)
  }

  /** `a.full_name || a.username`. */
  function DisplayName(a: BackendAdmin): (name: string)
    ensures Present(a.fullName) ==> name == a.fullName.value
    ensures !Present(a.fullName) ==> name == a.username
  {
    Or(if a.fullName.Some? then a.fullName.value else "", a.username)
  }

  function ToAdmin(a: BackendAdmin): Admin {
    Admin(a.id, DisplayName(a), a.email, a.role, a.status, a.lastLogin)
  }

  function MapAdmins(list: seq<BackendAdmin>): (r: seq<Admin>)
    ensures |r| == |list|
    ensures forall i :: 0 <= i < |list| ==> r[i] == ToAdmin(list[i])
  {
    seq(|list|, i requires 0 <= i < |list| => ToAdmin(list[i]))
  }

  /** A record stored from a payload is listed again under the name typed in the form:
      `username` and `full_name` both carry it, so whichever `DisplayName` picks, it is
      the same. */
  lemma PayloadNameRoundTrip(form: AdminFormData, id: string, status: string, lastLogin: Option<string>)
    ensures var p := ToPayload(form);
            DisplayName(BackendAdmin(id, p.username, Some(p.fullName), p.email, p.role, status, lastLogin))
            == form.name
  {
  }

  /** The test `filteredAdmins` applies to one admin. */
  predicate Matches(a: Admin, searchTerm: string, filterRole: string) {
    Truthy(a.name) && Truthy(a.email)
    && (Contains(Lower(a.name), Lower(searchTerm)) || Contains(Lower(a.email), Lower(searchTerm)))
    && (filterRole == "All" || a.role == filterRole)
  }

  /** `xs` is `ys` with some elements left out, the rest in their order. */
  predicate IsSubsequence<T(==)>(xs: seq<T>, ys: seq<T>)
    decreases |ys|
  {
    xs == [] ||
    (ys != [] && ((xs[0] == ys[0] && IsSubsequence(xs[1..], ys[1..])) || IsSubsequence(xs, ys[1..])))
  }

  /** `filteredAdmins`: the admins that match, in the order of the list. */
  function FilterAdmins(admins: seq<Admin>, searchTerm: string, filterRole: string): (r: seq<Admin>)
    ensures |r| <= |admins|
    ensures forall a :: a in r ==> a in admins && Matches(a, searchTerm, filterRole)
    ensures forall i :: 0 <= i < |admins| && Matches(admins[i], searchTerm, filterRole) ==> admins[i] in r
    ensures IsSubsequence(r, admins)
    ensures forall a :: multiset(r)[a] == if Matches(a, searchTerm, filterRole) then multiset(admins)[a] else 0
  {
    if admins == [] then []
    else
      var rest := FilterAdmins(admins[1..], searchTerm, filterRole);
      assert admins == [admins[0]] + admins[1..];
      if Matches(admins[0], searchTerm, filterRole) then
        assert ([admins[0]] + rest)[1..] == rest;
        [admins[0]] + rest
      else rest
  }

  /** With an empty search term and the 'All' role, only the admins without a name or an
      email are left out. */
  lemma EmptyFilterKeepsNamed(admins: seq<Admin>, i: int)
    requires 0 <= i < |admins|
    ensures admins[i] in FilterAdmins(admins, "", "All") <==> Truthy(admins[i].name) && Truthy(admins[i].email)
  {
    ContainsEmpty(Lower(admins[i].name));
  }

  /** The form `handleEdit` fills in for `admin`. */
  function EditForm(admin: Admin): (form: AdminFormData)
    ensures form.password == ""
  {
    AdminFormData(admin.name, admin.email, "", admin.role)
  }

  /** An admin with a name, an email and a role can be saved from the edit form without
      typing a password. */
  lemma EditFormValidates(admin: Admin)
    ensures ValidateForm(EditForm(admin), true).None? <==>
              Truthy(admin.name) && Truthy(admin.email) && Truthy(admin.role)
  {
  }

  /** The list and metrics a fetch leaves on the page. */
  function Loaded(outcome: FetchOutcome): (seq<Admin>, Metrics) {
    if outcome.Ok? then (MapAdmins(outcome.value.0), outcome.value.1) else ([], ZeroMetrics)
  }

  function FetchToasts(outcome: FetchOutcome): seq<Toast> {
    if outcome.Ok? then [] else [ToastError(Or(outcome.error, "Failed to load admin data"))]
  }

  /** The call `handleSubmit` makes: an update of the admin being edited, or a create. */
  function SaveCall(editing: Option<Admin>, p: Payload): (c: AdminCall)
    ensures c.Update? <==> editing.Some?
    ensures c.Create? <==> editing.None?
    ensures (c.Update? || c.Create?) && c.payload == p
    ensures c.Update? ==> c.id == editing.value.id
  {
    if editing.Some? then Update(editing.value.id, p) else Create(p)
  }

  // ----- the page -----

  class AdminPage {
    var admins: seq<Admin>
    var metrics: Metrics
    var loading: bool
    var searchTerm: string
    var filterRole: string
    var showModal: bool
    var editingAdmin: Option<Admin>
    var formData: AdminFormData
    var error: Option<string>
    var deletingId: Option<string>
    /** The backend calls issued so far, in order. */
    var calls: seq<AdminCall>
    /** The notifications raised so far, in order. */
    var toasts: seq<Toast>

    constructor ()
      ensures admins == [] && metrics == ZeroMetrics && loading
      ensures searchTerm == "" && filterRole == "All"
      ensures !showModal && editingAdmin.None? && formData == EmptyForm
      ensures error.None? && deletingId.None? && calls == [] && toasts == []
    {
      admins := [];
      metrics := ZeroMetrics;
      loading := true;
      searchTerm := "";
      filterRole := "All";
      showModal := false;
      editingAdmin := None;
      formData := EmptyForm;
      error := None;
      deletingId := None;
      calls := [];
      toasts := [];
    }

    /** The rows the table shows. */
    function FilteredAdmins(): (r: seq<Admin>)
      reads this
      ensures IsSubsequence(r, admins)
      ensures forall a :: multiset(r)[a] == if Matches(a, searchTerm, filterRole) then multiset(admins)[a] else 0
    {
      FilterAdmins(admins, searchTerm, filterRole)
    }

    /** `fetchAdminsAndMetrics` (the mount effect runs the same steps). It never throws. */
    method FetchAdminsAndMetrics(outcome: FetchOutcome)
      modifies this
      ensures (admins, metrics) == Loaded(outcome)
      ensures !loading
      ensures calls == old(calls) + [ListAdmins, GetMetrics]
      ensures toasts == old(toasts) + FetchToasts(outcome)
      ensures searchTerm == old(searchTerm) && filterRole == old(filterRole)
      ensures showModal == old(showModal) && editingAdmin == old(editingAdmin)
      ensures formData == old(formData) && error == old(error) && deletingId == old(deletingId)
    {
      loading := true;
      calls := calls + [ListAdmins, GetMetrics];
      if outcome.Ok? {
        admins := MapAdmins(outcome.value.0);
        metrics := outcome.value.1;
      } else {
        admins := [];
        metrics := ZeroMetrics;
        toasts := toasts + [ToastError(Or(outcome.error, "Failed to load admin data"))];
      }
      loading := false;
    }

    /** The part of `handleSubmit` after validation passed: `saved` is None when the
        create or update call succeeded, else the message of its error. */
    method Save(saved: Option<string>, refetch: FetchOutcome)
      modifies this
      ensures !loading
      ensures error == old(error) && deletingId == old(deletingId)
      ensures searchTerm == old(searchTerm) && filterRole == old(filterRole)
      ensures var call := SaveCall(old(editingAdmin), ToPayload(old(formData)));
              saved.Some? ==> calls == old(calls) + [call]
                              && toasts == old(toasts) + [ToastError(Or(saved.value, "Failed to save admin"))]
                              && admins == old(admins) && metrics == old(metrics)
                              && showModal == old(showModal) && editingAdmin == old(editingAdmin)
                              && formData == old(formData)
      ensures var call := SaveCall(old(editingAdmin), ToPayload(old(formData)));
              var note := if old(editingAdmin).Some? then "Admin updated successfully" else "Admin created successfully";
              saved.None? ==> calls == old(calls) + [call, ListAdmins, GetMetrics]
                              && toasts == old(toasts) + [ToastSuccess(note)] + FetchToasts(refetch)
                              && (admins, metrics) == Loaded(refetch)
                              && !showModal && editingAdmin.None? && formData == EmptyForm
    {
      loading := true;
      var payload := ToPayload(formData);
      calls := calls + [SaveCall(editingAdmin, payload)];
      if saved.Some? {
        toasts := toasts + [ToastError(Or(saved.value, "Failed to save admin"))];
      } else {
        toasts := toasts + [ToastSuccess(if editingAdmin.Some? then "Admin updated successfully" else "Admin created successfully")];
        FetchAdminsAndMetrics(refetch);
        showModal := false;
        editingAdmin := None;
        formData := EmptyForm;
      }
      loading := false;
    }

    /** `handleSubmit`: a form that fails validation shows the message and stops before
        any call is made or the loading flag is touched. */
    method HandleSubmit(saved: Option<string>, refetch: FetchOutcome)
      modifies this
      ensures var v := ValidateForm(old(formData), old(editingAdmin).Some?);
              v.Some? ==> error == v && toasts == old(toasts) + [ToastError(v.value)]
                          && calls == old(calls) && loading == old(loading)
                          && admins == old(admins) && metrics == old(metrics)
                          && formData == old(formData) && editingAdmin == old(editingAdmin)
                          && showModal == old(showModal)
      ensures var v := ValidateForm(old(formData), old(editingAdmin).Some?);
              var call := SaveCall(old(editingAdmin), ToPayload(old(formData)));
              v.None? && saved.Some? ==>
                error.None? && !loading
                && calls == old(calls) + [call]
                && toasts == old(toasts) + [ToastError(Or(saved.value, "Failed to save admin"))]
                && admins == old(admins) && metrics == old(metrics)
                && showModal == old(showModal) && editingAdmin == old(editingAdmin)
                && formData == old(formData)
      ensures var v := ValidateForm(old(formData), old(editingAdmin).Some?);
              var call := SaveCall(old(editingAdmin), ToPayload(old(formData)));
              var note := if old(editingAdmin).Some? then "Admin updated successfully" else "Admin created successfully";
              v.None? && saved.None? ==>
                error.None? && !loading
                && calls == old(calls) + [call, ListAdmins, GetMetrics]
                && toasts == old(toasts) + [ToastSuccess(note)] + FetchToasts(refetch)
                && (admins, metrics) == Loaded(refetch)
                && !showModal && editingAdmin.None? && formData == EmptyForm
      ensures deletingId == old(deletingId) && searchTerm == old(searchTerm) && filterRole == old(filterRole)
    {
      error := None;
      var v := ValidateForm(formData, editingAdmin.Some?);
      if v.Some? {
        error := v;
        toasts := toasts + [ToastError(v.value)];
        return;
      }
      Save(saved, refetch);
    }

    /** `handleEdit`: opens the modal on `admin`, with the password left empty. */
    method HandleEdit(admin: Admin)
      modifies this
      ensures editingAdmin == Some(admin) && formData == EditForm(admin) && showModal
      ensures admins == old(admins) && metrics == old(metrics) && loading == old(loading)
      ensures error == old(error) && deletingId == old(deletingId)
      ensures calls == old(calls) && toasts == old(toasts)
      ensures searchTerm == old(searchTerm) && filterRole == old(filterRole)
    {
      editingAdmin := Some(admin);
      formData := EditForm(admin);
      showModal := true;
    }

    /** The modal's close and cancel buttons. */
    method CloseModal()
      modifies this
      ensures !showModal && editingAdmin.None? && formData == EmptyForm
      ensures admins == old(admins) && metrics == old(metrics) && loading == old(loading)
      ensures error == old(error) && deletingId == old(deletingId)
      ensures calls == old(calls) && toasts == old(toasts)
      ensures searchTerm == old(searchTerm) && filterRole == old(filterRole)
    {
      showModal := false;
      editingAdmin := None;
      formData := EmptyForm;
    }

    /** The delete call and what follows it, once confirmed: `removed` is None when the
        call succeeded, else the message of its error. */
    method Remove(id: string, removed: Option<string>, refetch: FetchOutcome)
      modifies this
      ensures !loading && deletingId.None?
      ensures removed.Some? ==> calls == old(calls) + [Delete(id)]
                                && toasts == old(toasts) + [ToastError(Or(removed.value, "Failed to delete admin"))]
                                && admins == old(admins) && metrics == old(metrics)
      ensures removed.None? ==> calls == old(calls) + [Delete(id), ListAdmins, GetMetrics]
                                && toasts == old(toasts) + [ToastSuccess("Admin deleted successfully")] + FetchToasts(refetch)
                                && (admins, metrics) == Loaded(refetch)
      ensures error == old(error) && formData == old(formData) && editingAdmin == old(editingAdmin)
      ensures showModal == old(showModal) && searchTerm == old(searchTerm) && filterRole == old(filterRole)
    {
      loading := true;
      calls := calls + [Delete(id)];
      if removed.Some? {
        toasts := toasts + [ToastError(Or(removed.value, "Failed to delete admin"))];
      } else {
        toasts := toasts + [ToastSuccess("Admin deleted successfully")];
        FetchAdminsAndMetrics(refetch);
      }
      loading := false;
      deletingId := None;
    }

    /** `handleDelete`: `confirmed` is the answer to the confirmation dialog. A declined
        confirmation makes no call and leaves the list as it was. */
    method HandleDelete(id: string, confirmed: bool, removed: Option<string>, refetch: FetchOutcome)
      modifies this
      ensures deletingId.None?
      ensures !confirmed ==> calls == old(calls) && toasts == old(toasts)
                             && admins == old(admins) && metrics == old(metrics)
                             && loading == old(loading)
      ensures confirmed && removed.Some? ==>
                !loading && calls == old(calls) + [Delete(id)]
                && toasts == old(toasts) + [ToastError(Or(removed.value, "Failed to delete admin"))]
                && admins == old(admins) && metrics == old(metrics)
      ensures confirmed && removed.None? ==>
                !loading && calls == old(calls) + [Delete(id), ListAdmins, GetMetrics]
                && toasts == old(toasts) + [ToastSuccess("Admin deleted successfully")] + FetchToasts(refetch)
                && (admins, metrics) == Loaded(refetch)
      ensures error == old(error) && formData == old(formData) && editingAdmin == old(editingAdmin)
      ensures showModal == old(showModal) && searchTerm == old(searchTerm) && filterRole == old(filterRole)
    {
      deletingId := Some(id);
      if !confirmed {
        deletingId := None;
        return;
      }
      Remove(id, removed, refetch);
    }

    /** `toggleStatus`: one call, then a full re-fetch when it succeeded. */
    method ToggleStatus(id: string, toggled: Option<string>, refetch: FetchOutcome)
      modifies this
      ensures !loading
      ensures toggled.Some? ==> calls == old(calls) + [ToggleStatusCall(id)]
                                && toasts == old(toasts) + [ToastError(Or(toggled.value, "Failed to update status"))]
                                && admins == old(admins) && metrics == old(metrics)
      ensures toggled.None? ==> calls == old(calls) + [ToggleStatusCall(id), ListAdmins, GetMetrics]
                                && toasts == old(toasts) + [ToastSuccess("Admin status updated")] + FetchToasts(refetch)
                                && (admins, metrics) == Loaded(refetch)
      ensures error == old(error) && deletingId == old(deletingId) && formData == old(formData)
      ensures editingAdmin == old(editingAdmin) && showModal == old(showModal)
      ensures searchTerm == old(searchTerm) && filterRole == old(filterRole)
    {
      loading := true;
      calls := calls + [ToggleStatusCall(id)];
      if toggled.Some? {
        toasts := toasts + [ToastError(Or(toggled.value, "Failed to update status"))];
      } else {
        toasts := toasts + [ToastSuccess("Admin status updated")];
        FetchAdminsAndMetrics(refetch);
      }
      loading := false;
    }
  }
}
