/**
 * The toast queue. Ids are supplied by the caller (the page derives them
 * from the clock and a random number) and a timer that fires is an explicit
 * event.
 */
module NotificationStore {
  import opened Wrappers
  import opened Seqs

  datatype Kind = SuccessKind | WarningKind | ErrorKind | InfoKind

  datatype Notification = Notification(id: string, kind: Kind, message: string, duration: int)

  /** A pending auto-removal of `id` after `delay` milliseconds. */
  datatype Timer = Timer(id: string, delay: int)

  const DefaultDuration := 4000

  const Empty: seq<Notification> := []

  /** `addNotification`: append, and schedule removal when the duration is positive. */
  function Add(list: seq<Notification>, id: string, kind: Kind, message: string, duration: Option<int>)
    : (r: (seq<Notification>, Option<Timer>))
    ensures r.0 == list + [Notification(id, kind, message, duration.GetOr(DefaultDuration))]
    ensures r.1.Some? <==> duration.GetOr(DefaultDuration) > 0
    ensures r.1.Some? ==> r.1.value == Timer(id, duration.GetOr(DefaultDuration))
  {
    var d := duration.GetOr(DefaultDuration);
    var n := Notification(id, kind, message, d);
    (list + [n], if d > 0 then Some(Timer(id, d)) else None)
  }

  /** `removeNotification`, and the timer's callback: drop every entry with the id. */
  function Remove(list: seq<Notification>, id: string): (r: seq<Notification>)
    ensures IsSubsequence(r, list)
    ensures forall n :: n in r <==> n in list && n.id != id
  {
    Filter(list, (n: Notification) => n.id != id)
  }

  /** A timer firing removes the entries carrying its id. */
  function Expire(list: seq<Notification>, t: Timer): (r: seq<Notification>)
    ensures forall n :: n in r <==> n in list && n.id != t.id
  {
    Remove(list, t.id)
  }

  predicate HasId(list: seq<Notification>, id: string)
  {
    exists i :: 0 <= i < |list| && list[i].id == id
  }

  /** `clearAll`: no notification and no id is left, so removing any id afterwards finds nothing to drop. */
  function ClearAll(list: seq<Notification>): (r: seq<Notification>)
    ensures r == []
    ensures forall id :: !HasId(r, id)
    ensures forall id :: Remove(r, id) == r
  {
    []
  }

  /** Timers still pending from before `clearAll` fire harmlessly on the emptied queue, in any number. */
  lemma {:induction false} ClearThenTimers(list: seq<Notification>, timers: seq<Timer>)
    ensures ExpireAll(ClearAll(list), timers) == []
    decreases |timers|
  {
    if |timers| > 0 {
      ClearThenTimers(list, timers[1..]);
    }
  }

  /** The queue after the timers in `timers` fire, first to last. */
  function ExpireAll(list: seq<Notification>, timers: seq<Timer>): (r: seq<Notification>)
    ensures IsSubsequence(r, list)
    decreases |timers|
  {
    if |timers| == 0 then
      SubsequenceReflexive(list);
      list
    else
      var rest := ExpireAll(Expire(list, timers[0]), timers[1..]);
      SubsequenceTransitive(rest, Expire(list, timers[0]), list);
      rest
  }

  /** Removing an id that is not in the queue changes nothing. */
  lemma RemoveUnknown(list: seq<Notification>, id: string)
    requires !HasId(list, id)
    ensures Remove(list, id) == list
  {
    FilterAll(list, (n: Notification) => n.id != id);
  }

  /** Adding with a fresh id and then removing that id gives back the original queue. */
  lemma AddThenRemove(list: seq<Notification>, id: string, kind: Kind, message: string, duration: Option<int>)
    requires !HasId(list, id)
    ensures Remove(Add(list, id, kind, message, duration).0, id) == list
  {
    var n := Notification(id, kind, message, duration.GetOr(DefaultDuration));
    var keep := (x: Notification) => x.id != id;
    FilterDropLast(list, n, keep);
    FilterAll(list, keep);
  }

  /** A timer for a notification that was removed by hand fires harmlessly. */
  lemma LateTimerHarmless(list: seq<Notification>, id: string, kind: Kind, message: string, duration: int)
    requires !HasId(list, id) && duration > 0
    ensures var (added, timer) := Add(list, id, kind, message, Some(duration));
            Expire(Remove(added, id), timer.value) == list
  {
    AddThenRemove(list, id, kind, message, Some(duration));
    RemoveUnknown(list, id);
  }
}
