/**
 * pages/GoogleSheets.tsx: the same repository list as pages/Repositories.tsx, edited through a form
 * without a category. Every failure only reaches the console, so it leaves the store as it was.
 */
module GoogleSheetsPage {
  import opened Types
  import opened Api
  import opened StoreState
  import RepositoriesPage
  import Store

  /** The create form: no category field. */
  datatype SheetForm = SheetForm(name: string, url: string, assignedTo: string)

  const EmptySheetForm := SheetForm("", "", "")

  /**
   * The mount fetch, guarded by `repos && repos.length > 0`. A list call yields `[]` rather than
   * `null` on failure, so the guard is the non-empty test.
   */
  method FetchRepos(st: Store.AdminStore, t: Transport<seq<Repository>>)
    requires st.Valid()
    modifies st
    ensures st.Model() == if ListCall(t) == [] then old(st.Model()) else RepositoriesStored(old(st.Model()), ListCall(t))
    ensures st.Valid()
  {
    var repos := ListCall(t);
    if |repos| > 0 {
      st.SetRepositories(repos);
    }
  }

  /** `handleSave`: on success updates and logs the sheet link and ends editing. */
  method HandleSave(st: Store.AdminStore, editForm: Option<Repository>, backend: Outcome<()>, now: int)
    returns (request: Option<Repository>, editingEnded: bool)
    requires st.Valid()
    modifies st
    ensures request == editForm
    ensures editingEnded <==> request.Some? && backend.Ok?
    ensures editingEnded ==>
      st.Model() == Logged(RepositoryUpdated(old(st.Model()), editForm.value, now), "Updated Google Sheet Link: " + editForm.value.name,
                           ActorName(old(st.user), "Admin"), Info, now)
    ensures !editingEnded ==> st.Model() == old(st.Model())
    ensures st.Valid()
  {
    request, editingEnded := editForm, false;
    if editForm.Some? && backend.Ok? {
      var admin := ActorName(st.user, "Admin");
      st.UpdateRepository(editForm.value, now);
      st.AddLog("Updated Google Sheet Link: " + editForm.value.name, admin, Info, now);
      editingEnded := true;
    }
  }

  /** `handleAddNew`: needs a name and a url; the request carries no category. */
  method HandleAddNew(st: Store.AdminStore, form: SheetForm, backend: Outcome<Repository>, now: int)
    returns (request: Option<RepositoriesPage.RepositoryRequest>, form': SheetForm)
    requires st.Valid()
    modifies st
    ensures request.None? <==> form.name == "" || form.url == ""
    ensures request.Some? ==> request.value == RepositoriesPage.RepositoryRequest(form.name, form.url, None, form.assignedTo, "Never", now)
    ensures request.Some? && backend.Ok? ==>
      st.Model() == Logged(RepositoryAdded(old(st.Model()), backend.value, now), "Created New Sheet Entry: " + backend.value.name,
                           ActorName(old(st.user), "Admin"), Success, now)
      && form' == EmptySheetForm
    ensures request.None? || backend.Err? ==> st.Model() == old(st.Model()) && form' == form
    ensures st.Valid()
  {
    form' := form;
    if form.name == "" || form.url == "" {
      return None, form';
    }
    request := Some(RepositoriesPage.RepositoryRequest(form.name, form.url, None, form.assignedTo, "Never", now));
    if backend.Ok? {
      var created := backend.value;
      var admin := ActorName(st.user, "Admin");
      st.AddRepository(created, now);
      st.AddLog("Created New Sheet Entry: " + created.name, admin, Success, now);
      form' := EmptySheetForm;
    }
  }

  /** `handleDelete`: the reducer's live-sync entry is the only log it leaves. */
  method HandleDelete(st: Store.AdminStore, id: string, backend: Outcome<bool>, now: int)
    requires st.Valid()
    modifies st
    ensures backend.Ok? ==> st.Model() == RepositoryRemoved(old(st.Model()), id, now)
    ensures backend.Err? ==> st.Model() == old(st.Model())
    ensures st.Valid()
  {
    if backend.Ok? {
      st.RemoveRepository(id, now);
    }
  }

  /** A deletion from this page adds exactly one log entry, the live-sync one, even for an unknown id. */
  lemma DeleteLogsOnce(s: AdminState, id: string, now: int)
    ensures var t := RepositoryRemoved(s, id, now);
      && |t.logs| == |s.logs| + 1 && t.logs[1..] == s.logs
      && t.logs[0].activity == LiveSyncPrefix + "Repository '" + RemovedName(s.repositories, id) + "' unlinked and synced"
      && t.logs[0].status == Success
  {
  }
}
