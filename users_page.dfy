/** The users page (src/pages/users.js): five state cells, the transitions
    that update them, and the confirm-delete message. A request result is an
    input of the transition that awaits it; every setter call, request and
    logged error is recorded, in order, in a trace of effects. */
module UsersPage {
  import opened Api

  /** The page's five state cells. */
  datatype PageState = PageState(
    isLoading: bool,
    users: seq<User>,
    selectedUser: Option<User>,
    openUserForm: bool,
    openDeleteModal: bool)

  /** The state cells as `useState` first creates them. */
  const Initial := PageState(false, [], None, false, false)

  /** One observable step of the page: a state setter call, a request
      handed to the HTTP client, or an error written to the console. */
  datatype Effect =
    | SetLoading(loading: bool)
    | SetUsers(list: seq<User>)
    | SelectUser(user: Option<User>)
    | SetOpenUserForm(openForm: bool)
    | SetOpenDeleteModal(openModal: bool)
    | Send(request: Request)
    | LogError

  function Apply(st: PageState, e: Effect): PageState {
    match e
    case SetLoading(b) => st.(isLoading := b)
    case SetUsers(list) => st.(users := list)
    case SelectUser(u) => st.(selectedUser := u)
    case SetOpenUserForm(b) => st.(openUserForm := b)
    case SetOpenDeleteModal(b) => st.(openDeleteModal := b)
    case Send(_) => st
    case LogError => st
  }

  /** The state after a run of effects, applied first to last. */
  function Replay(st: PageState, es: seq<Effect>): PageState
    decreases |es|
  {
    if es == [] then st else Replay(Apply(st, es[0]), es[1..])
  }

  lemma {:induction false} ReplayConcat(st: PageState, a: seq<Effect>, b: seq<Effect>)
    ensures Replay(st, a + b) == Replay(Replay(st, a), b)
    decreases |a|
  {
    if a == [] {
      assert a + b == b;
    } else {
      assert (a + b)[1..] == a[1..] + b;
      ReplayConcat(Apply(st, a[0]), a[1..], b);
    }
  }

  // ---------------------------------------------------------------------
  // The transitions, as the effects each one produces

  /** The user actions and callbacks of the page. Results of the requests a
      transition awaits are part of the action. */
  datatype Action =
    | Download(fetch: FetchOutcome)
    | AddData
    | UserDetail(user: User)
    | ConfirmDeleteUser(user: User)
    | CloseAllModal
    | CloseUserForm(result: bool, fetch: FetchOutcome)
    | DeleteSelected(delete: Outcome, fetch: FetchOutcome)
    | Loading(loading: bool)

  /** downloadUsers: loading on, GET, keep the list only on status 200, log a
      thrown error, loading off. */
  function DownloadEffects(o: FetchOutcome): seq<Effect> {
    [SetLoading(true), Send(GetUsers)] + FetchResultEffects(o) + [SetLoading(false)]
  }

  /** What downloadUsers does with the GET's result. */
  function FetchResultEffects(o: FetchOutcome): seq<Effect> {
    match o
    case Fetched(status, data) => if status == 200 then [SetUsers(data)] else []
    case FetchThrew => [LogError]
  }

  /** handleCloseAllModal. */
  function CloseAllEffects(): seq<Effect> {
    [SetOpenUserForm(false), SetOpenDeleteModal(false), SelectUser(None)]
  }

  /** handleDeleteUser. With no user selected, reading `selectedUser.id`
      throws before the request is made, so the run stops right after loading
      is switched on. Otherwise: DELETE, re-fetch only on status 200, close
      all modals, loading off. */
  function DeleteEffects(selected: Option<User>, o: Outcome, fetch: FetchOutcome): seq<Effect> {
    match selected
    case None => [SetLoading(true)]
    case Some(u) => [SetLoading(true), Send(DeleteUser(u.id))] + DeleteTailEffects(o, fetch)
  }

  /** What handleDeleteUser does once the DELETE has come back. */
  function DeleteTailEffects(o: Outcome, fetch: FetchOutcome): seq<Effect> {
    DeleteResultEffects(o, fetch) + CloseAllEffects() + [SetLoading(false)]
  }

  /** What handleDeleteUser does with the DELETE's result. */
  function DeleteResultEffects(o: Outcome, fetch: FetchOutcome): seq<Effect> {
    match o
    case Responded(status) => if status == 200 then DownloadEffects(fetch) else []
    case Threw(_) => [LogError]
  }

  function ActionEffects(st: PageState, a: Action): seq<Effect> {
    match a
    case Download(o) => DownloadEffects(o)
    case AddData => [SelectUser(None), SetOpenUserForm(true)]
    case UserDetail(u) => [SelectUser(Some(u)), SetOpenUserForm(true)]
    case ConfirmDeleteUser(u) => [SelectUser(Some(u)), SetOpenDeleteModal(true)]
    case CloseAllModal => CloseAllEffects()
    case CloseUserForm(result, o) => CloseAllEffects() + (if result then DownloadEffects(o) else [])
    case DeleteSelected(d, o) => DeleteEffects(st.selectedUser, d, o)
    case Loading(b) => [SetLoading(b)]
  }

  function Step(st: PageState, a: Action): PageState {
    Replay(st, ActionEffects(st, a))
  }

  /** When an action can happen: the Add button and the table's icons sit
      behind an open dialog; only the form can close itself or report
      loading; only the confirmation dialog can confirm or cancel. */
  predicate Enabled(st: PageState, a: Action) {
    match a
    case Download(_) => true
    case AddData => !st.openUserForm && !st.openDeleteModal
    case UserDetail(_) => !st.openUserForm && !st.openDeleteModal
    case ConfirmDeleteUser(_) => !st.openUserForm && !st.openDeleteModal
    case CloseAllModal => st.openDeleteModal
    case CloseUserForm(_, _) => st.openUserForm
    case DeleteSelected(_, _) => st.openDeleteModal
    case Loading(_) => st.openUserForm
  }

  /** At most one dialog is open, and the confirmation dialog always has a
      user to delete. */
  predicate Consistent(st: PageState) {
    !(st.openUserForm && st.openDeleteModal) &&
    (st.openDeleteModal ==> st.selectedUser.Some?)
  }

  lemma ReplayOne(st: PageState, x: Effect)
    ensures Replay(st, [x]) == Apply(st, x)
  {
    assert [x][1..] == [];
  }

  lemma ReplayPair(st: PageState, x: Effect, y: Effect)
    ensures Replay(st, [x, y]) == Apply(Apply(st, x), y)
  {
    assert [x, y][1..] == [y];
    ReplayOne(Apply(st, x), y);
  }

  /** handleCloseAllModal closes both dialogs and clears the selection. */
  lemma CloseAllResult(st: PageState)
    ensures Replay(st, CloseAllEffects()) ==
      st.(openUserForm := false, openDeleteModal := false, selectedUser := None)
  {
    var e := CloseAllEffects();
    assert e[1..] == [SetOpenDeleteModal(false), SelectUser(None)];
    ReplayPair(Apply(st, e[0]), e[1], e[2]);
  }

  /** What one download does to the state cells. */
  lemma DownloadResult(st: PageState, o: FetchOutcome)
    ensures var r := Replay(st, DownloadEffects(o));
      && !r.isLoading
      && r.users == (if o.Fetched? && o.status == 200 then o.data else st.users)
      && r.selectedUser == st.selectedUser
      && r.openUserForm == st.openUserForm
      && r.openDeleteModal == st.openDeleteModal
  {
    var middle := FetchResultEffects(o);
    var pre: seq<Effect> := [SetLoading(true), Send(GetUsers)];
    ReplayConcat(st, pre + middle, [SetLoading(false)]);
    ReplayConcat(st, pre, middle);
  }

  /** What handleDeleteUser does with a user selected: the list is re-fetched
      exactly when the DELETE answered 200, and in every case both dialogs end
      closed, the selection cleared and loading off. */
  lemma DeleteResult(st: PageState, u: User, o: Outcome, fetch: FetchOutcome)
    ensures var r := Replay(st, DeleteEffects(Some(u), o, fetch));
      && !r.isLoading
      && !r.openUserForm && !r.openDeleteModal && r.selectedUser.None?
      && r.users == (if o == Responded(200) && fetch.Fetched? && fetch.status == 200
                     then fetch.data else st.users)
  {
    var middle := DeleteResultEffects(o, fetch);
    var pre: seq<Effect> := [SetLoading(true), Send(DeleteUser(u.id))];
    assert DeleteEffects(Some(u), o, fetch) == pre + middle + CloseAllEffects() + [SetLoading(false)];
    ReplayConcat(st, pre + middle + CloseAllEffects(), [SetLoading(false)]);
    ReplayConcat(st, pre + middle, CloseAllEffects());
    ReplayConcat(st, pre, middle);
    ReplayPair(st, SetLoading(true), Send(DeleteUser(u.id)));
    var s1 := Replay(st, pre);
    assert s1.users == st.users;
    if o == Responded(200) {
      DownloadResult(s1, fetch);
    } else {
      assert Replay(s1, middle).users == st.users by {
        if o.Threw? {
          ReplayOne(s1, LogError);
        }
      }
    }
    CloseAllResult(Replay(st, pre + middle));
    ReplayOne(Replay(st, pre + middle + CloseAllEffects()), SetLoading(false));
  }

  /** Every enabled action keeps the page consistent. */
  lemma StepConsistent(st: PageState, a: Action)
    requires Consistent(st) && Enabled(st, a)
    ensures Consistent(Step(st, a))
  {
    match a
    case Download(o) => DownloadResult(st, o);
    case CloseUserForm(result, o) =>
      if result {
        ReplayConcat(st, CloseAllEffects(), DownloadEffects(o));
        DownloadResult(Replay(st, CloseAllEffects()), o);
      } else {
        assert CloseAllEffects() + [] == CloseAllEffects();
      }
    case DeleteSelected(d, o) => DeleteResult(st, st.selectedUser.value, d, o);
    case AddData => ReplayPair(st, SelectUser(None), SetOpenUserForm(true));
    case UserDetail(u) => ReplayPair(st, SelectUser(Some(u)), SetOpenUserForm(true));
    case ConfirmDeleteUser(u) => ReplayPair(st, SelectUser(Some(u)), SetOpenDeleteModal(true));
    case CloseAllModal => CloseAllResult(st);
    case Loading(b) => ReplayOne(st, SetLoading(b));
  }

  /** The page starts with no dialog open. */
  lemma InitialConsistent()
    ensures Consistent(Initial)
  {
  }

  /** The state after a run of actions, one after the other. */
  function Run(st: PageState, acts: seq<Action>): PageState
    decreases |acts|
  {
    if acts == [] then st else Run(Step(st, acts[0]), acts[1..])
  }

  /** Each action of the run is enabled in the state it meets. */
  predicate RunEnabled(st: PageState, acts: seq<Action>)
    decreases |acts|
  {
    acts == [] || (Enabled(st, acts[0]) && RunEnabled(Step(st, acts[0]), acts[1..]))
  }

  /** Any run of enabled actions keeps a consistent page consistent; with
      InitialConsistent, every page the user can reach is consistent. */
  lemma {:induction false} RunConsistent(st: PageState, acts: seq<Action>)
    requires Consistent(st) && RunEnabled(st, acts)
    ensures Consistent(Run(st, acts))
    decreases |acts|
  {
    if acts != [] {
      StepConsistent(st, acts[0]);
      RunConsistent(Step(st, acts[0]), acts[1..]);
    }
  }

  /** From the initial page, a deletion reached by enabled actions and
      confirmed in the dialog always has a user selected. */
  lemma ReachableDeleteHasSelection(acts: seq<Action>, d: Outcome, fetch: FetchOutcome)
    requires RunEnabled(Initial, acts) && Enabled(Run(Initial, acts), DeleteSelected(d, fetch))
    ensures Run(Initial, acts).selectedUser.Some?
  {
    InitialConsistent();
    RunConsistent(Initial, acts);
  }

  /** In a consistent page, confirming a deletion always finds a selected
      user, so handleDeleteUser never fails on a missing selection. */
  lemma ConfirmHasSelection(st: PageState, d: Outcome, fetch: FetchOutcome)
    requires Consistent(st) && Enabled(st, DeleteSelected(d, fetch))
    ensures DeleteEffects(st.selectedUser, d, fetch)[1] == Send(DeleteUser(st.selectedUser.value.id))
  {
  }

  /** handleDeleteUser re-fetches the list exactly when a user is selected
      and the DELETE answers 200. */
  lemma RefetchOnlyOn200(selected: Option<User>, d: Outcome, fetch: FetchOutcome)
    ensures Send(GetUsers) in DeleteEffects(selected, d, fetch) <==>
      selected.Some? && d == Responded(200)
  {
    if selected.Some? && d == Responded(200) {
      assert DeleteEffects(selected, d, fetch)[3] == Send(GetUsers);
    }
  }

  /** An effect of the list's re-fetch: the GET or the new list. */
  predicate IsRefetch(x: Effect) {
    x == Send(GetUsers) || x.SetUsers?
  }

  /** An effect of handleCloseAllModal. */
  predicate IsClose(x: Effect) {
    x == SetOpenUserForm(false) || x == SetOpenDeleteModal(false) || x == SelectUser(None)
  }

  /** handleDeleteUser always closes both dialogs and clears the selection,
      and does each only after every step of the list's re-fetch. */
  lemma RefetchBeforeClose(u: User, d: Outcome, fetch: FetchOutcome)
    ensures var e := DeleteEffects(Some(u), d, fetch);
      && SetOpenUserForm(false) in e && SetOpenDeleteModal(false) in e && SelectUser(None) in e
      && forall i, j ::
           (0 <= i < |e| && 0 <= j < |e| && IsRefetch(e[i]) && IsClose(e[j])) ==> i < j
  {
    var e := DeleteEffects(Some(u), d, fetch);
    var pre: seq<Effect> := [SetLoading(true), Send(DeleteUser(u.id))];
    var m := DeleteResultEffects(d, fetch);
    var post := CloseAllEffects() + [SetLoading(false)];
    assert e == pre + m + post;
    assert forall x :: x in m ==> !IsClose(x);
    assert e[|pre| + |m|] == SetOpenUserForm(false);
    assert e[|pre| + |m| + 1] == SetOpenDeleteModal(false);
    assert e[|pre| + |m| + 2] == SelectUser(None);
    forall k | 0 <= k < |pre| + |m|
      ensures !IsClose(e[k])
    {
      if k >= |pre| {
        assert e[k] == m[k - |pre|];
      }
    }
    forall k | |pre| + |m| <= k < |e|
      ensures !IsRefetch(e[k])
    {
      assert e[k] == post[k - |pre| - |m|];
    }
  }

  /** The text of the confirmation dialog: a question naming the selected
      user, or the empty string while nobody is selected. */
  function ConfirmMessage(selected: Option<User>): (r: string)
    ensures r == "" <==> selected.None?
    ensures selected.Some? ==>
      && |r| == |ConfirmPrefix| + |selected.value.username| + 1
      && r[..|ConfirmPrefix|] == ConfirmPrefix
      && r[|ConfirmPrefix|..|r| - 1] == selected.value.username
      && r[|r| - 1] == '?'
  {
    match selected
    case None => ""
    case Some(u) => ConfirmPrefix + u.username + "?"
  }

  const ConfirmPrefix := "Are you sure you want to delete the user - "

  // ---------------------------------------------------------------------
  // The page component

  /** The page component. Each handler's new state is the pure transition
      `Step` of the matching action, and its effects are appended to the
      trace in the order the handler produces them. */
  class Page {
    var isLoading: bool
    var users: seq<User>
    var selectedUser: Option<User>
    var openUserForm: bool
    var openDeleteModal: bool
    /** Every effect the page has had so far, first to last. */
    ghost var effects: seq<Effect>

    function State(): PageState
      reads this
    {
      PageState(isLoading, users, selectedUser, openUserForm, openDeleteModal)
    }

    constructor ()
      ensures State() == Initial && effects == []
    {
      isLoading, users, selectedUser := false, [], None;
      openUserForm, openDeleteModal := false, false;
      effects := [];
    }

    /** Records one effect and applies it to the cells: a setter call
        changes its own cell only. */
    method Emit(e: Effect)
      modifies this
      ensures State() == Apply(old(State()), e)
      ensures effects == old(effects) + [e]
    {
      match e {
        case SetLoading(b) => isLoading := b;
        case SetUsers(list) => users := list;
        case SelectUser(u) => selectedUser := u;
        case SetOpenUserForm(b) => openUserForm := b;
        case SetOpenDeleteModal(b) => openDeleteModal := b;
        case Send(_) =>
        case LogError =>
      }
      effects := effects + [e];
    }

    /** downloadUsers(), with the GET's result as input. */
    method DownloadUsers(o: FetchOutcome)
      modifies this
      ensures State() == Step(old(State()), Download(o))
      ensures effects == old(effects) + DownloadEffects(o)
      ensures users == (if o.Fetched? && o.status == 200 then o.data else old(users))
      ensures !isLoading
      ensures selectedUser == old(selectedUser)
      ensures openUserForm == old(openUserForm) && openDeleteModal == old(openDeleteModal)
    {
      ghost var st0, e0 := State(), effects;
      Emit(SetLoading(true));
      Emit(Send(GetUsers));
      assert effects == e0 + [SetLoading(true), Send(GetUsers)];
      match o {
        case Fetched(status, data) =>
          if status == 200 {
            Emit(SetUsers(data));
          }
        case FetchThrew =>
          Emit(LogError);
      }
      assert effects == e0 + [SetLoading(true), Send(GetUsers)] + FetchResultEffects(o);
      Emit(SetLoading(false));
      DownloadResult(st0, o);
    }

    /** onAddData: the form opens with no user selected. */
    method OnAddData()
      modifies this
      ensures State() == Step(old(State()), AddData)
      ensures effects == old(effects) + ActionEffects(old(State()), AddData)
      ensures selectedUser.None? && openUserForm
      ensures openDeleteModal == old(openDeleteModal)
      ensures users == old(users) && isLoading == old(isLoading)
    {
      ghost var st0 := State();
      Emit(SelectUser(None));
      Emit(SetOpenUserForm(true));
      ReplayPair(st0, SelectUser(None), SetOpenUserForm(true));
    }

    /** onUserDetail(user): the form opens on that user. */
    method OnUserDetail(u: User)
      modifies this
      ensures State() == Step(old(State()), UserDetail(u))
      ensures effects == old(effects) + ActionEffects(old(State()), UserDetail(u))
      ensures selectedUser == Some(u) && openUserForm
      ensures openDeleteModal == old(openDeleteModal)
      ensures users == old(users) && isLoading == old(isLoading)
    {
      ghost var st0 := State();
      Emit(SelectUser(Some(u)));
      Emit(SetOpenUserForm(true));
      ReplayPair(st0, SelectUser(Some(u)), SetOpenUserForm(true));
    }

    /** onConfirmDeleteUser(user): the confirmation opens on that user. */
    method OnConfirmDeleteUser(u: User)
      modifies this
      ensures State() == Step(old(State()), ConfirmDeleteUser(u))
      ensures effects == old(effects) + ActionEffects(old(State()), ConfirmDeleteUser(u))
      ensures selectedUser == Some(u) && openDeleteModal
      ensures openUserForm == old(openUserForm)
      ensures users == old(users) && isLoading == old(isLoading)
    {
      ghost var st0 := State();
      Emit(SelectUser(Some(u)));
      Emit(SetOpenDeleteModal(true));
      ReplayPair(st0, SelectUser(Some(u)), SetOpenDeleteModal(true));
    }

    /** handleCloseAllModal: both dialogs closed, selection cleared. */
    method HandleCloseAllModal()
      modifies this
      ensures State() == Step(old(State()), CloseAllModal)
      ensures effects == old(effects) + CloseAllEffects()
      ensures !openUserForm && !openDeleteModal && selectedUser.None?
      ensures users == old(users) && isLoading == old(isLoading)
    {
      ghost var st0 := State();
      Emit(SetOpenUserForm(false));
      Emit(SetOpenDeleteModal(false));
      Emit(SelectUser(None));
      CloseAllResult(st0);
    }

    /** onCloseUserForm(result): close everything first, then re-fetch the
        list exactly when the form reports a persisted change. */
    method OnCloseUserForm(result: bool, o: FetchOutcome)
      modifies this
      ensures State() == Step(old(State()), CloseUserForm(result, o))
      ensures effects == old(effects) + ActionEffects(old(State()), CloseUserForm(result, o))
      ensures !openUserForm && !openDeleteModal && selectedUser.None?
      ensures users == (if result && o.Fetched? && o.status == 200 then o.data else old(users))
      ensures isLoading == (old(isLoading) && !result)
    {
      ghost var st0 := State();
      HandleCloseAllModal();
      if result {
        DownloadUsers(o);
        ReplayConcat(st0, CloseAllEffects(), DownloadEffects(o));
      } else {
        assert CloseAllEffects() + [] == CloseAllEffects();
      }
    }

    /** handleDeleteUser, with the DELETE's and the re-fetch's results as
        inputs. `rejected` is true when no user was selected: the function
        then throws on `selectedUser.id` after switching loading on. */
    method HandleDeleteUser(d: Outcome, o: FetchOutcome) returns (rejected: bool)
      modifies this
      ensures State() == Step(old(State()), DeleteSelected(d, o))
      ensures effects == old(effects) + DeleteEffects(old(selectedUser), d, o)
      ensures rejected <==> old(selectedUser).None?
      ensures rejected ==> State() == old(State()).(isLoading := true)
      ensures !rejected ==>
        && !isLoading && !openUserForm && !openDeleteModal && selectedUser.None?
        && users == (if d == Responded(200) && o.Fetched? && o.status == 200
                     then o.data else old(users))
    {
      rejected := selectedUser.None?;
      if rejected {
        ghost var st0 := State();
        Emit(SetLoading(true));
        ReplayOne(st0, SetLoading(true));
      } else {
        DeleteSelectedUser(selectedUser.value, d, o);
      }
    }

    /** handleDeleteUser with `u` selected: loading on, DELETE at the
        user's id, then the rest. */
    method DeleteSelectedUser(u: User, d: Outcome, o: FetchOutcome)
      requires selectedUser == Some(u)
      modifies this
      ensures State() == Replay(old(State()), DeleteEffects(Some(u), d, o))
      ensures effects == old(effects) + DeleteEffects(Some(u), d, o)
      ensures !isLoading && !openUserForm && !openDeleteModal && selectedUser.None?
      ensures users == (if d == Responded(200) && o.Fetched? && o.status == 200
                        then o.data else old(users))
    {
      ghost var st0 := State();
      Emit(SetLoading(true));
      Emit(Send(DeleteUser(u.id)));
      ghost var pre: seq<Effect> := [SetLoading(true), Send(DeleteUser(u.id))];
      ReplayPair(st0, SetLoading(true), Send(DeleteUser(u.id)));
      AfterDelete(d, o);
      DeleteResult(st0, u, d, o);
      ReplayConcat(st0, pre, DeleteTailEffects(d, o));
    }

    /** The part of handleDeleteUser after the DELETE has come back:
        its result, then close all modals and switch loading off. */
    method AfterDelete(d: Outcome, o: FetchOutcome)
      modifies this
      ensures State() == Replay(old(State()), DeleteTailEffects(d, o))
      ensures effects == old(effects) + DeleteTailEffects(d, o)
    {
      ghost var st0 := State();
      OnDeleteResult(d, o);
      ghost var st1 := State();
      HandleCloseAllModal();
      ghost var st2 := State();
      Emit(SetLoading(false));
      ReplayOne(st2, SetLoading(false));
      ReplayConcat(st1, CloseAllEffects(), [SetLoading(false)]);
      ReplayConcat(st0, DeleteResultEffects(d, o), CloseAllEffects() + [SetLoading(false)]);
      assert DeleteTailEffects(d, o) == DeleteResultEffects(d, o) + (CloseAllEffects() + [SetLoading(false)]);
    }

    /** Inside handleDeleteUser's `try`: re-fetch on status 200; in the
        `catch`: log the error. */
    method OnDeleteResult(d: Outcome, o: FetchOutcome)
      modifies this
      ensures State() == Replay(old(State()), DeleteResultEffects(d, o))
      ensures effects == old(effects) + DeleteResultEffects(d, o)
    {
      ghost var st0 := State();
      match d {
        case Responded(status) =>
          if status == 200 {
            DownloadUsers(o);
          } else {
            assert Replay(st0, []) == st0;
            assert effects + [] == effects;
          }
        case Threw(_) =>
          Emit(LogError);
          ReplayOne(st0, LogError);
      }
    }

    /** handleLoading(loading), the form's onLoading callback. */
    method HandleLoading(b: bool)
      modifies this
      ensures State() == Step(old(State()), Loading(b))
      ensures effects == old(effects) + [SetLoading(b)]
      ensures State() == old(State()).(isLoading := b)
    {
      ghost var st0 := State();
      Emit(SetLoading(b));
      ReplayOne(st0, SetLoading(b));
    }

    /** The message the confirmation dialog is rendered with. */
    function CurrentConfirmMessage(): (r: string)
      reads this
      ensures r == "" <==> selectedUser.None?
    {
      ConfirmMessage(selectedUser)
    }
  }
}
