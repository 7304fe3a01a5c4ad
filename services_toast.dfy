/** The global toast queue (`useToast` in src/services/toast.ts): a list of
    notifications, newest first, never longer than five, with per-type defaults
    for the icon and the display time. The id and the creation time, which the
    source draws from the clock and `Math.random`, are parameters; the timer that
    removes a notification after its duration is not part of this model. */
module Toast {

  import opened Common

  const MaxNotifications: nat := 5
  const DefaultDuration: int := 4000
  const ErrorDuration: int := 6000

  const SuccessIcon: string := "\U{1F389}"
  const ErrorIcon: string := "\U{274C}"
  const WarningIcon: string := "\U{26A0}\U{FE0F}"
  const InfoIcon: string := "\U{1F4A1}"

  datatype ToastType = Success | Error | Warning | Info

  datatype Notification = Notification(
    id: string,
    title: string,
    message: string,
    kind: ToastType,
    duration: int,
    icon: Option<string>,
    createdAt: int)

  /** What a caller hands to `addNotification`: a notification without id and
      creation time, whose duration may be left out. */
  datatype NotificationInput = NotificationInput(
    title: string,
    message: string,
    kind: ToastType,
    duration: Option<int>,
    icon: Option<string>)

  /** `Partial<ToastNotification>` as passed to the convenience methods: each field
      that is present overrides the default (the id and the creation time a caller
      might pass are overwritten by `addNotification` anyway). */
  datatype ToastOptions = ToastOptions(
    title: Option<string>,
    message: Option<string>,
    kind: Option<ToastType>,
    duration: Option<int>,
    icon: Option<string>)

  const NoOptions: ToastOptions := ToastOptions(None, None, None, None, None)

  /** The stored notification: the input with its id and creation time, and the
      duration defaulted to 4000 only when it was left out. */
  function Stamp(input: NotificationInput, id: string, now: int): (n: Notification)
    ensures n.id == id && n.createdAt == now
    ensures n.title == input.title && n.message == input.message
    ensures n.kind == input.kind && n.icon == input.icon
    ensures input.duration.Some? ==> n.duration == input.duration.value
    ensures input.duration.None? ==> n.duration == DefaultDuration
  {
    Notification(id, input.title, input.message, input.kind, input.duration.GetOr(DefaultDuration), input.icon, now)
  }

  /** The list after `unshift` and the truncating `slice`. */
  function Pushed(s: seq<Notification>, n: Notification): seq<Notification> {
    Take([n] + s, MaxNotifications)
  }

  /** The new notification comes first, the list stays within five entries, and the
      older entries follow in their order, the oldest ones dropped. */
  lemma PushedSpec(s: seq<Notification>, n: Notification)
    ensures var r := Pushed(s, n);
            |r| <= MaxNotifications && |r| > 0 && r[0] == n &&
            |r| == (if |s| < MaxNotifications then |s| + 1 else MaxNotifications) &&
            r[1..] == s[..|r| - 1]
  {
    var r := Pushed(s, n);
    assert r[1..] == ([n] + s)[1..|r|];
    assert ([n] + s)[1..|r|] == s[..|r| - 1];
  }

  /** Index of the first notification with that id (`findIndex`), or -1. */
  function FindById(s: seq<Notification>, id: string): (i: int)
    ensures -1 <= i < |s|
    ensures i >= 0 ==> s[i].id == id && forall j :: 0 <= j < i ==> s[j].id != id
    ensures i == -1 ==> forall j :: 0 <= j < |s| ==> s[j].id != id
  {
    if |s| == 0 then -1
    else if s[0].id == id then 0
    else
      var k := FindById(s[1..], id);
      if k == -1 then -1 else k + 1
  }

  /** The list after `removeNotification(id)`. */
  function Removed(s: seq<Notification>, id: string): (r: seq<Notification>)
    ensures FindById(s, id) == -1 ==> r == s
    ensures FindById(s, id) >= 0 ==> |r| == |s| - 1
  {
    var i := FindById(s, id);
    if i > -1 then s[..i] + s[i + 1..] else s
  }

  /** Removing drops only the first entry with the id: everything before it and
      everything after it is kept in order. */
  lemma RemovedSpec(s: seq<Notification>, id: string)
    ensures var i := FindById(s, id);
            var r := Removed(s, id);
            i >= 0 ==> multiset(r) + multiset{s[i]} == multiset(s) &&
                       (forall j :: 0 <= j < i ==> r[j] == s[j]) &&
                       (forall j :: i < j < |s| ==> r[j - 1] == s[j])
  {
    var i := FindById(s, id);
    if i >= 0 {
      var r := s[..i] + s[i + 1..];
      assert r == Removed(s, id);
      assert s == s[..i] + [s[i]] + s[i + 1..];
      assert multiset(s) == multiset(s[..i]) + multiset{s[i]} + multiset(s[i + 1..]);
      assert multiset(r) == multiset(s[..i]) + multiset(s[i + 1..]);
      forall j | i < j < |s|
        ensures r[j - 1] == s[j]
      {
        assert r[j - 1] == s[i + 1..][j - 1 - i];
      }
    }
  }

  /** A freshly added notification whose id is new can be removed again, and the
      queue is back where it was when it was not full. */
  lemma {:induction false} AddThenRemove(s: seq<Notification>, n: Notification)
    requires |s| < MaxNotifications
    requires forall j :: 0 <= j < |s| ==> s[j].id != n.id
    ensures Removed(Pushed(s, n), n.id) == s
  {
    var r := Pushed(s, n);
    assert r == [n] + s;
    assert FindById(r, n.id) == 0;
    assert r[1..] == s;
  }

  /** The input the convenience methods build: title, `message || ''`, the type's
      own defaults, then the caller's options spread over them. */
  function ConvenienceInput(kind: ToastType, icon: string, duration: Option<int>, title: string,
                            message: Option<string>, options: ToastOptions): (input: NotificationInput)
    ensures input.title == options.title.GetOr(title)
    ensures input.message == options.message.GetOr(OrElse(message, ""))
    ensures input.kind == options.kind.GetOr(kind)
    ensures input.icon == Some(options.icon.GetOr(icon))
    ensures input.duration == (if options.duration.Some? then options.duration else duration)
  {
    NotificationInput(
      options.title.GetOr(title),
      options.message.GetOr(OrElse(message, "")),
      options.kind.GetOr(kind),
      if options.duration.Some? then options.duration else duration,
      Some(options.icon.GetOr(icon)))
  }

  /** `error(title, message)` without options shows an error for 6000 ms with the
      cross icon, and an explicit duration in the options wins over it, even 0. */
  lemma ErrorDefaults(title: string, message: Option<string>, options: ToastOptions, id: string, now: int)
    ensures var n := Stamp(ConvenienceInput(ToastType.Error, ErrorIcon, Some(ErrorDuration), title, message, NoOptions), id, now);
            n.kind == ToastType.Error && n.duration == 6000 && n.icon == Some(ErrorIcon) &&
            (Truthy(message) ==> n.message == message.value) && (!Truthy(message) ==> n.message == "")
    ensures options.duration.Some? ==>
              Stamp(ConvenienceInput(ToastType.Error, ErrorIcon, Some(ErrorDuration), title, message, options), id, now).duration
              == options.duration.value
  {
  }

  /** The other three types keep the 4000 ms default unless the options give a
      duration, and an explicit 0 stays 0. */
  lemma DefaultDurationOnlyWhenMissing(kind: ToastType, icon: string, title: string, message: Option<string>,
                                       options: ToastOptions, id: string, now: int)
    ensures var n := Stamp(ConvenienceInput(kind, icon, None, title, message, options), id, now);
            (options.duration.None? ==> n.duration == 4000) &&
            (options.duration == Some(0) ==> n.duration == 0)
  {
  }

  class ToastQueue {
    var notifications: seq<Notification>

    ghost predicate Valid()
      reads this
    {
      |notifications| <= MaxNotifications
    }

    constructor ()
      ensures Valid() && notifications == []
    {
      notifications := [];
    }

    /** `visibleNotifications`: the first five, which is the whole queue. */
    function VisibleNotifications(): (r: seq<Notification>)
      reads this
      requires Valid()
      ensures r == notifications
    {
      Take(notifications, MaxNotifications)
    }

    /** `hasNotifications` */
    function HasNotifications(): (b: bool)
      reads this
      ensures b <==> notifications != []
    {
      |notifications| > 0
    }

    /** `addNotification`: stamps the notification, puts it first and drops the oldest
        entries beyond five; returns the id. */
    method AddNotification(input: NotificationInput, id: string, now: int) returns (r: string)
      requires Valid()
      modifies this
      ensures Valid() && r == id
      ensures notifications == Pushed(old(notifications), Stamp(input, id, now))
      ensures notifications[0] == Stamp(input, id, now) && HasNotifications()
    {
      var newNotification := Stamp(input, id, now);
      notifications := [newNotification] + notifications;
      if |notifications| > MaxNotifications {
        notifications := notifications[..MaxNotifications];
      }
      r := id;
    }

    /** `removeNotification(id)`: splices out the first entry with the id, if any. */
    method RemoveNotification(id: string)
      requires Valid()
      modifies this
      ensures Valid()
      ensures notifications == Removed(old(notifications), id)
    {
      var index := FindById(notifications, id);
      if index > -1 {
        notifications := notifications[..index] + notifications[index + 1..];
      }
    }

    /** `clearAllNotifications` */
    method ClearAllNotifications()
      modifies this
      ensures Valid() && notifications == [] && !HasNotifications()
    {
      notifications := [];
    }

    /** `success(title, message, options)` */
    method Success(title: string, message: Option<string>, options: ToastOptions, id: string, now: int)
      returns (r: string)
      requires Valid()
      modifies this
      ensures Valid() && r == id
      ensures notifications == Pushed(old(notifications),
                Stamp(ConvenienceInput(ToastType.Success, SuccessIcon, None, title, message, options), id, now))
    {
      r := AddNotification(ConvenienceInput(ToastType.Success, SuccessIcon, None, title, message, options), id, now);
    }

    /** `error(title, message, options)`: errors stay 6000 ms unless the options say otherwise. */
    method Error(title: string, message: Option<string>, options: ToastOptions, id: string, now: int)
      returns (r: string)
      requires Valid()
      modifies this
      ensures Valid() && r == id
      ensures notifications == Pushed(old(notifications),
                Stamp(ConvenienceInput(ToastType.Error, ErrorIcon, Some(ErrorDuration), title, message, options), id, now))
    {
      r := AddNotification(ConvenienceInput(ToastType.Error, ErrorIcon, Some(ErrorDuration), title, message, options), id, now);
    }

    /** `warning(title, message, options)` */
    method Warning(title: string, message: Option<string>, options: ToastOptions, id: string, now: int)
      returns (r: string)
      requires Valid()
      modifies this
      ensures Valid() && r == id
      ensures notifications == Pushed(old(notifications),
                Stamp(ConvenienceInput(ToastType.Warning, WarningIcon, None, title, message, options), id, now))
    {
      r := AddNotification(ConvenienceInput(ToastType.Warning, WarningIcon, None, title, message, options), id, now);
    }

    /** `info(title, message, options)` */
    method Info(title: string, message: Option<string>, options: ToastOptions, id: string, now: int)
      returns (r: string)
      requires Valid()
      modifies this
      ensures Valid() && r == id
      ensures notifications == Pushed(old(notifications),
                Stamp(ConvenienceInput(ToastType.Info, InfoIcon, None, title, message, options), id, now))
    {
      r := AddNotification(ConvenienceInput(ToastType.Info, InfoIcon, None, title, message, options), id, now);
    }
  }
}
