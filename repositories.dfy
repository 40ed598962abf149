/**
 * pages/Repositories.tsx: the repository list's mount fetch and its handlers (save an edit, create,
 * delete). Handlers take the store, their inputs, the settled backend call and the clock reading
 * `now`, and return the request they sent (`None` when a guard stopped it first).
 */
module RepositoriesPage {
  import opened Types
  import opened Api
  import opened StoreState
  import Store

  /** The create form; `category` is one of 'Inquiries', 'Bookings', 'Manual Matches'. */
  datatype RepositoryForm = RepositoryForm(name: string, url: string, category: string, assignedTo: string)

  const EmptyRepositoryForm := RepositoryForm("", "", "Inquiries", "")

  /** The body sent to `addRepository`; `category` is absent when the form has none. */
  datatype RepositoryRequest = RepositoryRequest(name: string, url: string, category: Option<string>, assignedTo: string,
                                                 lastSync: string, createdAt: int)

  /** The mount fetch: the list replaces the store's only when it is non-empty. */
  method FetchRepos(st: Store.AdminStore, t: Transport<seq<Repository>>)
    requires st.Valid()
    modifies st
    ensures st.Model() == if ListCall(t) == [] then old(st.Model()) else RepositoriesStored(old(st.Model()), ListCall(t))
    ensures st.Valid()
  {
    var repos := ListCall(t);
    if |repos| > 0 {
      st.SetRepositories(repos);
    }
  }

  /** `handleSave`: sends the edited repository and, on success, updates and logs it and ends editing. */
  method HandleSave(st: Store.AdminStore, editForm: Option<Repository>, backend: Outcome<()>, now: int)
    returns (request: Option<Repository>, editingEnded: bool)
    requires st.Valid()
    modifies st
    ensures request == editForm
    ensures editingEnded <==> request.Some? && backend.Ok?
    ensures editingEnded ==>
      st.Model() == Logged(RepositoryUpdated(old(st.Model()), editForm.value, now), "Updated Repository: " + editForm.value.name,
                           ActorName(old(st.user), "Admin"), Info, now)
    ensures !editingEnded ==> st.Model() == old(st.Model())
    ensures st.Valid()
  {
    request, editingEnded := editForm, false;
    if editForm.Some? && backend.Ok? {
      var admin := ActorName(st.user, "Admin");
      st.UpdateRepository(editForm.value, now);
      st.AddLog("Updated Repository: " + editForm.value.name, admin, Info, now);
      editingEnded := true;
    }
  }

  /**
   * `handleAddNew`: without a name and a url nothing happens; otherwise the form is sent with
   * `lastSync` 'Never' and, if the backend returns the new repository, it is added (which
   * live-syncs) and logged, and the form is reset.
   */
  method HandleAddNew(st: Store.AdminStore, form: RepositoryForm, backend: Outcome<Repository>, now: int)
    returns (request: Option<RepositoryRequest>, form': RepositoryForm)
    requires st.Valid()
    modifies st
    ensures request.None? <==> form.name == "" || form.url == ""
    ensures request.Some? ==> request.value == RepositoryRequest(form.name, form.url, Some(form.category), form.assignedTo, "Never", now)
    ensures request.Some? && backend.Ok? ==>
      st.Model() == Logged(RepositoryAdded(old(st.Model()), backend.value, now), "Created New Repository: " + backend.value.name,
                           ActorName(old(st.user), "Admin"), Success, now)
      && form' == EmptyRepositoryForm
    ensures request.None? || backend.Err? ==> st.Model() == old(st.Model()) && form' == form
    ensures st.Valid()
  {
    form' := form;
    if form.name == "" || form.url == "" {
      return None, form';
    }
    request := Some(RepositoryRequest(form.name, form.url, Some(form.category), form.assignedTo, "Never", now));
    if backend.Ok? {
      var created := backend.value;
      var admin := ActorName(st.user, "Admin");
      st.AddRepository(created, now);
      st.AddLog("Created New Repository: " + created.name, admin, Success, now);
      form' := EmptyRepositoryForm;
    }
  }

  /** `handleDelete`: no confirmation; on success the repository goes (which live-syncs) and a warning is logged. */
  method HandleDelete(st: Store.AdminStore, id: string, name: string, backend: Outcome<bool>, now: int)
    requires st.Valid()
    modifies st
    ensures backend.Ok? ==>
      st.Model() == Logged(RepositoryRemoved(old(st.Model()), id, now), "Deleted Repository: " + name,
                           ActorName(old(st.user), "Admin"), Warning, now)
    ensures backend.Err? ==> st.Model() == old(st.Model())
    ensures st.Valid()
  {
    if backend.Ok? {
      var admin := ActorName(st.user, "Admin");
      st.RemoveRepository(id, now);
      st.AddLog("Deleted Repository: " + name, admin, Warning, now);
    }
  }

  /** A created repository is stamped with the clock reading and the two new logs sit on top, the page's first. */
  lemma AddNewLogsTwice(s: AdminState, created: Repository, admin: string, now: int)
    ensures var t := Logged(RepositoryAdded(s, created, now), "Created New Repository: " + created.name, admin, Success, now);
      && t.repositories == [created.(createdAt := now)] + s.repositories
      && |t.logs| == |s.logs| + 2 && t.logs[2..] == s.logs
      && t.logs[0].activity == "Created New Repository: " + created.name
      && t.logs[1].activity == LiveSyncPrefix + "Repository '" + created.name + "' mirrored to Sheets"
  {
    LiveSyncThenLog(RepositoriesStored(s, [created.(createdAt := now)] + s.repositories),
                    "Repository '" + created.name + "' mirrored to Sheets", "Created New Repository: " + created.name, admin, Success, now);
  }
}
