/** The notification list: toasts appended by `addToast`, each removed by id when
    closed or when its timer fires, and the style of each toast type. Toast ids are
    fresh naturals handed out in order; the timer itself is not modelled, only
    whether one is scheduled and after how many milliseconds. */
module Toasts {
  import opened Seqs

  datatype Toast = Toast(id: nat, message: string, kind: string)

  function ToastId(t: Toast): nat {
    t.id
  }

  const DefaultKind := "info"
  const DefaultDuration := 5000

  datatype ToastIcon = CheckCircle | AlertCircle | AlertTriangle | InfoIcon

  datatype Style = Style(icon: ToastIcon, bgClass: string, borderClass: string)

  const InfoStyle := Style(InfoIcon, "bg-blue-500", "border-blue-600")

  /** `config[type] || config.info`. */
  function StyleFor(kind: string): (r: Style)
    ensures kind !in {"success", "error", "warning", "info"} ==> r == InfoStyle
    ensures r.icon == CheckCircle <==> kind == "success"
    ensures r.icon == AlertCircle <==> kind == "error"
    ensures r.icon == AlertTriangle <==> kind == "warning"
  {
    match kind
    case "success" => Style(CheckCircle, "bg-green-500", "border-green-600")
    case "error" => Style(AlertCircle, "bg-red-500", "border-red-600")
    case "warning" => Style(AlertTriangle, "bg-yellow-500", "border-yellow-600")
    case "info" => InfoStyle
    case _ => InfoStyle
  }

  /** The delay after which `addToast` schedules the removal, if it schedules one:
      only a positive duration, 5000 when none is given, sets a timer. */
  function ScheduledRemoval(duration: Option<int>): (r: Option<int>)
    ensures duration.None? ==> r == Some(DefaultDuration)
    ensures duration.Some? && duration.value > 0 ==> r == duration
    ensures duration.Some? && duration.value <= 0 ==> r.None?
  {
    var d := duration.GetOr(DefaultDuration);
    if d > 0 then Some(d) else None
  }

  /** `prev.filter((toast) => toast.id !== id)`. */
  function WithoutToast(toasts: seq<Toast>, id: nat): (r: seq<Toast>)
    ensures forall j :: 0 <= j < |r| ==> r[j].id != id && r[j] in toasts
    ensures forall j :: 0 <= j < |toasts| && toasts[j].id != id ==> toasts[j] in r
  {
    Filter(toasts, (t: Toast) => t.id != id)
  }

  /** Removing an id no toast has leaves the list as it was; with distinct ids, removing
      the id of one toast removes that toast alone and keeps the others in order. */
  lemma RemoveExactlyOne(toasts: seq<Toast>, next: nat, id: nat)
    requires KeysFresh(toasts, ToastId, next)
    ensures (forall j :: 0 <= j < |toasts| ==> toasts[j].id != id) ==> WithoutToast(toasts, id) == toasts
    ensures forall i :: 0 <= i < |toasts| && toasts[i].id == id ==>
      WithoutToast(toasts, id) == toasts[..i] + toasts[i + 1..]
  {
    FilterKeyDropsOne(toasts, ToastId, next, id, (t: Toast) => t.id != id);
  }

  /** The timer of a toast already closed by hand removes nothing more. */
  lemma RemoveTwice(toasts: seq<Toast>, id: nat)
    ensures WithoutToast(WithoutToast(toasts, id), id) == WithoutToast(toasts, id)
  {
    FilterIdempotent(toasts, (t: Toast) => t.id != id);
  }

  /** Removing the toast just added gives back the list from before. */
  lemma AddThenRemove(toasts: seq<Toast>, next: nat, message: string, kind: string)
    requires KeysFresh(toasts, ToastId, next)
    ensures WithoutToast(toasts + [Toast(next, message, kind)], next) == toasts
  {
    FilterFreshKey(toasts, ToastId, next, Toast(next, message, kind), (t: Toast) => t.id != next);
  }

  class ToastList {
    var toasts: seq<Toast>
    /** The id the next toast gets. */
    var nextId: nat

    /** Every toast has its own id, below the next one. */
    predicate Valid()
      reads this
    {
      KeysFresh(toasts, ToastId, nextId)
    }

    constructor()
      ensures toasts == [] && Valid()
    {
      toasts := [];
      nextId := 0;
    }

    /** `addToast(message, type = 'info', duration = 5000)`: one toast at the end; the
        id is returned with the delay of the removal it schedules. */
    method AddToast(message: string, kind: Option<string>, duration: Option<int>)
      returns (id: nat, removal: Option<int>)
      requires Valid()
      modifies this
      ensures id == old(nextId) && nextId == id + 1
      ensures toasts == old(toasts) + [Toast(id, message, kind.GetOr(DefaultKind))]
      ensures removal == ScheduledRemoval(duration)
      ensures Valid()
    {
      id := nextId;
      var t := Toast(id, message, kind.GetOr(DefaultKind));
      KeysFreshAppend(toasts, ToastId, nextId, t);
      toasts := toasts + [t];
      nextId := nextId + 1;
      removal := ScheduledRemoval(duration);
    }

    /** `removeToast`: called by the close button and by the timer. */
    method RemoveToast(id: nat)
      requires Valid()
      modifies this
      ensures toasts == WithoutToast(old(toasts), id) && nextId == old(nextId)
      ensures Valid()
    {
      KeysFreshFilter(toasts, ToastId, nextId, (t: Toast) => t.id != id);
      toasts := WithoutToast(toasts, id);
    }

    /** `toast.success`. */
    method Success(message: string, duration: Option<int>) returns (id: nat)
      requires Valid()
      modifies this
      ensures id == old(nextId) && nextId == id + 1
      ensures toasts == old(toasts) + [Toast(id, message, "success")]
      ensures Valid()
    {
      var removal;
      id, removal := AddToast(message, Some("success"), duration);
    }

    /** `toast.error`. */
    method Error(message: string, duration: Option<int>) returns (id: nat)
      requires Valid()
      modifies this
      ensures id == old(nextId) && nextId == id + 1
      ensures toasts == old(toasts) + [Toast(id, message, "error")]
      ensures Valid()
    {
      var removal;
      id, removal := AddToast(message, Some("error"), duration);
    }

    /** `toast.warning`. */
    method Warning(message: string, duration: Option<int>) returns (id: nat)
      requires Valid()
      modifies this
      ensures id == old(nextId) && nextId == id + 1
      ensures toasts == old(toasts) + [Toast(id, message, "warning")]
      ensures Valid()
    {
      var removal;
      id, removal := AddToast(message, Some("warning"), duration);
    }

    /** `toast.info`. */
    method Info(message: string, duration: Option<int>) returns (id: nat)
      requires Valid()
      modifies this
      ensures id == old(nextId) && nextId == id + 1
      ensures toasts == old(toasts) + [Toast(id, message, "info")]
      ensures Valid()
    {
      var removal;
      id, removal := AddToast(message, Some("info"), duration);
    }
  }

  /** A toast shown and then closed leaves the list as it was before. */
  method ShowThenClose(list: ToastList, message: string)
    requires list.Valid()
    modifies list
    ensures list.toasts == old(list.toasts) && list.Valid()
  {
    var before := list.toasts;
    var id := list.Error(message, None);
    AddThenRemove(before, id, message, "error");
    list.RemoveToast(id);
  }
}
