/**
 * The sync status state machine (the AASM block on the `status` column) and
 * the integer encoding of the `status` enum.
 */
module Lifecycle {
  import opened Wrappers

  /** The `status` enum. `Aborted` is a value of the column that no event enters or leaves. */
  datatype Status = Disabled | Healthy | Pending | Failed | Aborted

  datatype Event = Complete | Fail | Disable | Enable

  /** Raised by a whiny event fired from a state it does not list. */
  datatype TransitionError = InvalidTransition(event: Event, from: Status)

  const INITIAL_STATUS: Status := Pending

  /** The states each event may be fired from. */
  function Sources(e: Event): set<Status> {
    match e
    case Complete => {Pending, Healthy}
    case Fail => {Pending, Healthy}
    case Disable => {Pending, Healthy, Failed}
    case Enable => {Disabled}
  }

  /** The state each event moves to. */
  function Target(e: Event): Status {
    match e
    case Complete => Healthy
    case Fail => Failed
    case Disable => Disabled
    case Enable => Pending
  }

  /** Firing `e` in state `s`: the event's target, or an error when `s` is not one of its sources. */
  function Fire(s: Status, e: Event): Result<Status, TransitionError> {
    if s in Sources(e) then Ok(Target(e)) else Err(InvalidTransition(e, s))
  }

  /** `complete`: pending and healthy become healthy; every other state is refused. */
  lemma CompleteTable(s: Status)
    ensures Fire(s, Complete) == (if s == Pending || s == Healthy then Ok(Healthy)
                                  else Err(InvalidTransition(Complete, s)))
  {
  }

  /** `fail`: pending and healthy become failed; every other state is refused. */
  lemma FailTable(s: Status)
    ensures Fire(s, Fail) == (if s == Pending || s == Healthy then Ok(Failed)
                              else Err(InvalidTransition(Fail, s)))
  {
  }

  /** `disable`: pending, healthy and failed become disabled; disabled and aborted, which no event leaves, are refused. */
  lemma DisableTable(s: Status)
    ensures Fire(s, Disable) == (if s == Pending || s == Healthy || s == Failed then Ok(Disabled)
                                 else Err(InvalidTransition(Disable, s)))
  {
  }

  /** `enable` succeeds only from disabled, and returns the sync to pending. */
  lemma EnableTable(s: Status)
    ensures Fire(s, Enable) == (if s == Disabled then Ok(Pending)
                                else Err(InvalidTransition(Enable, s)))
  {
  }

  /** No state is terminal: from each of the four machine states some event succeeds. */
  lemma NoTerminalState(s: Status)
    requires s != Aborted
    ensures exists e :: Fire(s, e).Ok?
  {
    if s == Disabled {
      assert Fire(s, Enable).Ok?;
    } else {
      assert Fire(s, Disable).Ok?;
    }
  }

  /** Firing a sequence of events in order; the first refused event stops the run. */
  function Run(s: Status, events: seq<Event>): Result<Status, TransitionError>
    decreases |events|
  {
    if |events| == 0 then Ok(s)
    else match Fire(s, events[0])
      case Ok(t) => Run(t, events[1..])
      case Err(err) => Err(err)
  }

  /** No sequence of events ever reaches `aborted` from a state of the machine. */
  lemma {:induction false} RunNeverAborts(s: Status, events: seq<Event>)
    requires s != Aborted
    ensures Run(s, events).Ok? ==> Run(s, events).value != Aborted
    decreases |events|
  {
    if |events| > 0 && Fire(s, events[0]).Ok? {
      RunNeverAborts(Fire(s, events[0]).value, events[1..]);
    }
  }

  /** An aborted sync refuses every event sequence but the empty one. */
  lemma {:induction false} AbortedIsStuck(events: seq<Event>)
    requires |events| > 0
    ensures Run(Aborted, events) == Err(InvalidTransition(events[0], Aborted))
  {
  }

  /** A failed sync becomes healthy again only by being disabled and then enabled first. */
  lemma RecoveryFromFailed(events: seq<Event>)
    requires Run(Failed, events) == Ok(Healthy)
    ensures |events| >= 3 && events[0] == Disable && events[1] == Enable
  {
    assert |events| > 0;
    assert events[0] == Disable;
    assert Run(Failed, events) == Run(Disabled, events[1..]);
    assert |events| > 1;
    assert events[1] == Enable;
    assert Run(Disabled, events[1..]) == Run(Pending, events[2..]);
    assert |events| > 2;
  }

  // ---- The integer encoding of the `status` enum ----

  /** The stored integer: the position in `disabled healthy pending failed aborted`. */
  function StatusCode(s: Status): nat {
    match s
    case Disabled => 0
    case Healthy => 1
    case Pending => 2
    case Failed => 3
    case Aborted => 4
  }

  function StatusOfCode(n: int): Option<Status> {
    if n == 0 then Some(Disabled)
    else if n == 1 then Some(Healthy)
    else if n == 2 then Some(Pending)
    else if n == 3 then Some(Failed)
    else if n == 4 then Some(Aborted)
    else None
  }

  /** The encoding is a bijection between the five statuses and the codes 0 to 4. */
  lemma StatusCodeRoundTrip(s: Status, n: int)
    ensures StatusOfCode(StatusCode(s)) == Some(s)
    ensures StatusOfCode(n).Some? <==> 0 <= n < 5
    ensures StatusOfCode(n).Some? ==> StatusCode(StatusOfCode(n).value) == n
  {
  }

  /** `set_defaults`: a new record keeps a status already set and otherwise takes the initial state. */
  function DefaultStatus(given: Option<Status>): (s: Status)
    ensures given.Some? ==> s == given.value
    ensures given.None? ==> s == INITIAL_STATUS
  {
    given.GetOr(INITIAL_STATUS)
  }
}
