/** The admin dashboard's notification bell (components/dashboard_Users/DashboardLayout.tsx):
    every `admin_new_message` event is recorded, announced by a toast and a
    short beep, counted on the badge, and the popover lists the latest ten. */
module DashboardLayout {
  import opened ChatTypes
  import opened Lists

  /** The popover shows at most this many notifications. */
  const PopoverSize: nat := 10
  const BeepFrequencyHz: nat := 800
  const BeepDurationMs: nat := 200

  /** The result of `playBeep`: the tone played, or the audio API threw and
      the error was caught and logged inside `playBeep`. */
  datatype BeepOutcome = Played(frequencyHz: nat, durationMs: nat) | Swallowed

  /** `playBeep`, given whether the browser's audio API works. It always
      returns normally. */
  function PlayBeep(audioAvailable: bool): (outcome: BeepOutcome)
    ensures outcome.Swallowed? <==> !audioAvailable
    ensures outcome.Played? ==> outcome.frequencyHz == BeepFrequencyHz && outcome.durationMs == BeepDurationMs
  {
    if audioAvailable then Played(BeepFrequencyHz, BeepDurationMs) else Swallowed
  }

  /** `notifications.slice(-10).reverse()`: the latest ten, newest first. */
  function RecentFirst(ns: seq<AdminNotification>): seq<AdminNotification> {
    Reverse(TakeLast(ns, PopoverSize))
  }

  /** The popover holds min(10, n) entries and its i-th entry is the i-th
      most recent notification. */
  lemma RecentFirstSpec(ns: seq<AdminNotification>)
    ensures |RecentFirst(ns)| == Min(PopoverSize, |ns|)
    ensures forall i :: 0 <= i < |RecentFirst(ns)| ==> RecentFirst(ns)[i] == ns[|ns| - 1 - i]
  {
    var last := TakeLast(ns, PopoverSize);
    forall i | 0 <= i < |last| ensures Reverse(last)[i] == ns[|ns| - 1 - i] {
      assert Reverse(last)[i] == last[|last| - 1 - i];
      assert last[|last| - 1 - i] == ns[|ns| - |last| + (|last| - 1 - i)];
    }
  }

  /** Receiving one more notification puts it at the top of the popover and
      shifts the others down by one, dropping the oldest once ten are shown. */
  lemma RecentFirstAfterAppend(ns: seq<AdminNotification>, n: AdminNotification)
    ensures RecentFirst(ns + [n]) == ([n] + RecentFirst(ns))[..Min(PopoverSize, |ns| + 1)]
  {
    RecentFirstSpec(ns);
    RecentFirstSpec(ns + [n]);
    NewestOnTop(ns, n, RecentFirst(ns), RecentFirst(ns + [n]));
  }

  /** The step behind `RecentFirstAfterAppend`, stated on the entries alone. */
  lemma NewestOnTop(ns: seq<AdminNotification>, n: AdminNotification,
                    before: seq<AdminNotification>, after: seq<AdminNotification>)
    requires |before| == Min(PopoverSize, |ns|)
    requires forall i :: 0 <= i < |before| ==> before[i] == ns[|ns| - 1 - i]
    requires |after| == Min(PopoverSize, |ns| + 1)
    requires forall i :: 0 <= i < |after| ==> after[i] == (ns + [n])[|ns| - i]
    ensures after == ([n] + before)[..Min(PopoverSize, |ns| + 1)]
  {
    var expected := ([n] + before)[..Min(PopoverSize, |ns| + 1)];
    forall i | 0 <= i < |after| ensures after[i] == expected[i] {
      if i > 0 {
        assert expected[i] == before[i - 1];
      }
    }
  }

  /** What the popover shows: the "no notifications" text exactly when none
      was received, then the recent entries. */
  datatype PopoverView = PopoverView(showEmptyText: bool, entries: seq<AdminNotification>)

  function Popover(ns: seq<AdminNotification>): (v: PopoverView)
    ensures v.showEmptyText <==> ns == []
    ensures v.showEmptyText ==> v.entries == []
    ensures v.entries == RecentFirst(ns)
  {
    PopoverView(|ns| == 0, RecentFirst(ns))
  }

  /** The dashboard's notification state for as long as it is mounted. */
  class NotificationCenter {
    /** Every notification received, oldest first; never trimmed. */
    var notifications: seq<AdminNotification>
    /** The texts announced by toasts, in order. */
    var toasts: seq<string>
    /** The outcome of every beep attempt, in order. */
    var beeps: seq<BeepOutcome>

    ghost predicate Valid()
      reads this
    {
      |toasts| == |notifications| && |beeps| == |notifications|
      && forall i :: 0 <= i < |notifications| ==> toasts[i] == notifications[i].message.text
    }

    /** The badge count: all notifications received, never trimmed, so it
        is zero exactly when the popover shows its "no notifications" text
        and never smaller than the number of entries the popover lists. */
    function BadgeCount(): (n: nat)
      reads this
      ensures n == 0 <==> Popover(notifications).showEmptyText
      ensures n >= |Popover(notifications).entries|
    {
      RecentFirstSpec(notifications);
      |notifications|
    }

    constructor ()
      ensures Valid()
      ensures notifications == [] && toasts == [] && beeps == []
    {
      notifications := [];
      toasts := [];
      beeps := [];
    }

    /** The `admin_new_message` handler: append, then toast, then beep. The
        notification is recorded whatever the beep does. */
    method OnAdminNewMessage(payload: AdminNotification, audioAvailable: bool) returns (beep: BeepOutcome)
      requires Valid()
      modifies this
      ensures Valid()
      ensures notifications == old(notifications) + [payload]
      ensures toasts == old(toasts) + [payload.message.text]
      ensures beeps == old(beeps) + [beep] && beep == PlayBeep(audioAvailable)
      ensures BadgeCount() == old(BadgeCount()) + 1
    {
      notifications := notifications + [payload];
      toasts := toasts + [payload.message.text];
      beep := PlayBeep(audioAvailable);
      beeps := beeps + [beep];
    }
  }
}
