/** The UI store (`src/stores/uiStore.ts`): sidebar flags, the toast and
    modal stacks, the global loading flag and the theme, with the `useToast`
    shorthands. The random ids the source draws are parameters; the timer
    that dismisses a toast is modelled by returning its delay, after which
    the page calls `RemoveToast`. */
module UIStore {
  import opened Common

  datatype ToastType = SuccessToast | ErrorToast | WarningToast | InfoToast

  datatype Toast = Toast(id: string, toastType: ToastType, title: string,
                         message: Option<string>, duration: Option<int>)

  /** A toast as a caller describes it, before it has an id. */
  datatype ToastRequest = ToastRequest(toastType: ToastType, title: string,
                                       message: Option<string>, duration: Option<int>)

  /** An open modal: the component, known by name, and the optional props
      passed to it (prop values are kept as text). */
  datatype Modal = Modal(id: string, component: string, props: Option<map<string, string>>)

  datatype Theme = Light | Dark | System

  const DefaultToastDuration := 5000

  /** How long a new toast stays up: its own duration, else 5 seconds; None
      when it stays until dismissed. */
  function DismissDelay(duration: Option<int>): (r: Option<int>)
    ensures duration.None? ==> r == Some(DefaultToastDuration)
    ensures duration.Some? && duration.value > 0 ==> r == duration
    ensures duration.Some? && duration.value <= 0 ==> r.None?
  {
    var d := duration.GetOr(DefaultToastDuration);
    if d > 0 then Some(d) else None
  }

  /** Removing by id drops every entry with that id. */
  function WithoutToast(ts: seq<Toast>, id: string): (r: seq<Toast>)
    ensures forall i :: 0 <= i < |r| ==> r[i].id != id && r[i] in ts
    ensures forall i :: 0 <= i < |ts| && ts[i].id != id ==> ts[i] in r
    ensures IsSubsequence(r, ts)
  {
    FilterIsSubsequence(ts, (t: Toast) => t.id != id);
    Filter(ts, (t: Toast) => t.id != id)
  }

  function WithoutModal(ms: seq<Modal>, id: string): (r: seq<Modal>)
    ensures forall i :: 0 <= i < |r| ==> r[i].id != id && r[i] in ms
    ensures forall i :: 0 <= i < |ms| && ms[i].id != id ==> ms[i] in r
    ensures IsSubsequence(r, ms)
  {
    FilterIsSubsequence(ms, (m: Modal) => m.id != id);
    Filter(ms, (m: Modal) => m.id != id)
  }

  /** Removing by id keeps every copy of a toast with another id. */
  lemma WithoutToastCount(ts: seq<Toast>, id: string, t: Toast)
    ensures multiset(WithoutToast(ts, id))[t] == if t.id != id then multiset(ts)[t] else 0
  {
    FilterCount(ts, (x: Toast) => x.id != id, t);
  }

  /** Removing by id keeps every copy of a modal with another id. */
  lemma WithoutModalCount(ms: seq<Modal>, id: string, m: Modal)
    ensures multiset(WithoutModal(ms, id))[m] == if m.id != id then multiset(ms)[m] else 0
  {
    FilterCount(ms, (x: Modal) => x.id != id, m);
  }

  /** Dismissing a toast whose id was fresh undoes adding it. */
  lemma DismissUndoesAdd(ts: seq<Toast>, t: Toast)
    requires forall i :: 0 <= i < |ts| ==> ts[i].id != t.id
    ensures WithoutToast(ts + [t], t.id) == ts
  {
    FilterAppend(ts, t, (x: Toast) => x.id != t.id);
    FilterAll(ts, (x: Toast) => x.id != t.id);
  }

  datatype UIState = UIState(
    sidebarOpen: bool,
    sidebarCollapsed: bool,
    toasts: seq<Toast>,
    modals: seq<Modal>,
    globalLoading: bool,
    loadingMessage: Option<string>,
    theme: Theme)

  class Store {
    var sidebarOpen: bool
    var sidebarCollapsed: bool
    var toasts: seq<Toast>
    var modals: seq<Modal>
    var globalLoading: bool
    var loadingMessage: Option<string>
    var theme: Theme

    function State(): UIState
      reads this
    {
      UIState(sidebarOpen, sidebarCollapsed, toasts, modals, globalLoading, loadingMessage, theme)
    }

    constructor()
      ensures State() == UIState(true, false, [], [], false, None, Light)
    {
      sidebarOpen := true;
      sidebarCollapsed := false;
      toasts := [];
      modals := [];
      globalLoading := false;
      loadingMessage := None;
      theme := Light;
    }

    /** `toggleSidebar`: flips `sidebarOpen` and nothing else. */
    method ToggleSidebar()
      modifies this
      ensures State() == old(State()).(sidebarOpen := !old(sidebarOpen))
    {
      sidebarOpen := !sidebarOpen;
    }

    method SetSidebarOpen(open: bool)
      modifies this
      ensures State() == old(State()).(sidebarOpen := open)
    {
      sidebarOpen := open;
    }

    method SetSidebarCollapsed(collapsed: bool)
      modifies this
      ensures State() == old(State()).(sidebarCollapsed := collapsed)
    {
      sidebarCollapsed := collapsed;
    }

    /** `addToast` with `id` standing for the random id it draws: one toast
        is appended; `dismissAfter` is the delay of the dismissal timer, if
        one is started. */
    method AddToast(request: ToastRequest, id: string) returns (dismissAfter: Option<int>)
      modifies this
      ensures State() == old(State()).(toasts := old(toasts) + [Toast(id, request.toastType, request.title,
                                                                      request.message, request.duration)])
      ensures dismissAfter == DismissDelay(request.duration)
    {
      toasts := toasts + [Toast(id, request.toastType, request.title, request.message, request.duration)];
      var duration := request.duration.GetOr(DefaultToastDuration);
      if duration > 0 {
        dismissAfter := Some(duration);
      } else {
        dismissAfter := None;
      }
    }

    /** `removeToast`, and the dismissal timer's callback. */
    method RemoveToast(id: string)
      modifies this
      ensures State() == old(State()).(toasts := WithoutToast(old(toasts), id))
    {
      toasts := Filter(toasts, (t: Toast) => t.id != id);
    }

    method ClearToasts()
      modifies this
      ensures State() == old(State()).(toasts := [])
    {
      toasts := [];
    }

    /** `openModal`: the caller's modal, props included, with a fresh id. */
    method OpenModal(component: string, props: Option<map<string, string>>, id: string)
      modifies this
      ensures State() == old(State()).(modals := old(modals) + [Modal(id, component, props)])
    {
      modals := modals + [Modal(id, component, props)];
    }

    method CloseModal(id: string)
      modifies this
      ensures State() == old(State()).(modals := WithoutModal(old(modals), id))
    {
      modals := Filter(modals, (m: Modal) => m.id != id);
    }

    method CloseAllModals()
      modifies this
      ensures State() == old(State()).(modals := [])
    {
      modals := [];
    }

    /** `setGlobalLoading(loading, message)`; an omitted message is null. */
    method SetGlobalLoading(loading: bool, message: Option<string>)
      modifies this
      ensures State() == old(State()).(globalLoading := loading, loadingMessage := message)
    {
      globalLoading := loading;
      loadingMessage := message;
    }

    method SetTheme(t: Theme)
      modifies this
      ensures State() == old(State()).(theme := t)
    {
      theme := t;
    }

    /** `useToast().success`. */
    method Success(title: string, message: Option<string>, id: string) returns (dismissAfter: Option<int>)
      modifies this
      ensures State() == old(State()).(toasts := old(toasts) + [Toast(id, SuccessToast, title, message, None)])
      ensures dismissAfter == Some(DefaultToastDuration)
    {
      dismissAfter := AddToast(ToastRequest(SuccessToast, title, message, None), id);
    }

    /** `useToast().error`. */
    method Error(title: string, message: Option<string>, id: string) returns (dismissAfter: Option<int>)
      modifies this
      ensures State() == old(State()).(toasts := old(toasts) + [Toast(id, ErrorToast, title, message, None)])
      ensures dismissAfter == Some(DefaultToastDuration)
    {
      dismissAfter := AddToast(ToastRequest(ErrorToast, title, message, None), id);
    }

    /** `useToast().warning`. */
    method Warning(title: string, message: Option<string>, id: string) returns (dismissAfter: Option<int>)
      modifies this
      ensures State() == old(State()).(toasts := old(toasts) + [Toast(id, WarningToast, title, message, None)])
      ensures dismissAfter == Some(DefaultToastDuration)
    {
      dismissAfter := AddToast(ToastRequest(WarningToast, title, message, None), id);
    }

    /** `useToast().info`. */
    method Info(title: string, message: Option<string>, id: string) returns (dismissAfter: Option<int>)
      modifies this
      ensures State() == old(State()).(toasts := old(toasts) + [Toast(id, InfoToast, title, message, None)])
      ensures dismissAfter == Some(DefaultToastDuration)
    {
      dismissAfter := AddToast(ToastRequest(InfoToast, title, message, None), id);
    }
  }
}
