/** The browser sign-in of cmd/cli/device.go, RFC 8628 shaped: how often the client may
    ask, and for how long. Durations are whole seconds; waiting and asking may take
    longer than they should, never less. */
module DeviceFlow {
  datatype Handshake = Handshake(interval: int, expiresIn: int)

  /** The server's numbers, or the defaults for missing ones. */
  function Defaulted(h: Handshake): Handshake {
    Handshake(if h.interval <= 0 then 3 else h.interval, if h.expiresIn <= 0 then 600 else h.expiresIn)
  }

  datatype Status = Pending | Approved | Denied | Claimed

  datatype Reply =
    | Gone                      // 404
    | Transient                 // 429, 503 or no response
    | Refused
    | Unreadable
    | Answer(status: Status, token: string)

  datatype Outcome =
    Cancelled | Expired | NoLongerValid | Failed | NoToken | Declined | AlreadyUsed | SignedIn(token: string)

  /** The reply lets the client ask again. */
  predicate KeepsWaiting(r: Reply) {
    r.Transient? || (r.Answer? && r.status.Pending?)
  }

  function Conclude(r: Reply): Outcome
    requires !KeepsWaiting(r)
  {
    match r
    case Gone => NoLongerValid
    case Refused => Failed
    case Unreadable => Failed
    case Answer(Approved, token) => if token == "" then NoToken else SignedIn(token)
    case Answer(Denied, _) => Declined
    case Answer(_, _) => AlreadyUsed
  }

  /** One poll: when it was made, and what came back. */
  datatype Poll = Poll(at: int, reply: Reply)

  function Earlier(polls: seq<Poll>): seq<Poll>
    requires polls != []
  {
    polls[..|polls| - 1]
  }

  function Transients(polls: seq<Poll>): nat {
    if polls == [] then 0
    else Transients(Earlier(polls)) + (if polls[|polls| - 1].reply.Transient? then 1 else 0)
  }

  /** The wait before poll k: the interval, one second more for each setback so far. */
  function Wait(interval: int, polls: seq<Poll>, k: nat): int
    requires k <= |polls|
  {
    interval + Transients(polls[..k])
  }

  /** What the first k waits add up to. */
  function Waited(interval: int, polls: seq<Poll>, k: nat): int
    requires k <= |polls| + 1
  {
    if k == 0 then 0 else Waited(interval, polls, k - 1) + Wait(interval, polls, k - 1)
  }

  function LastTime(began: int, polls: seq<Poll>): int {
    if polls == [] then began else polls[|polls| - 1].at
  }

  /** Each poll comes its wait after the one before, and none after the deadline. */
  predicate Paced(h: Handshake, began: int, polls: seq<Poll>) {
    polls == [] ||
    (&& Paced(h, began, Earlier(polls))
     && LastTime(began, Earlier(polls)) + Wait(h.interval, polls, |polls| - 1) <= LastTime(began, polls)
     && LastTime(began, polls) <= began + h.expiresIn)
  }

  predicate AllKeepWaiting(polls: seq<Poll>) {
    polls == [] || (AllKeepWaiting(Earlier(polls)) && KeepsWaiting(polls[|polls| - 1].reply))
  }

  /** The last reply, and only it, ended the wait. */
  predicate Concluded(polls: seq<Poll>, r: Outcome) {
    && polls != []
    && AllKeepWaiting(Earlier(polls))
    && !KeepsWaiting(polls[|polls| - 1].reply)
    && r == Conclude(polls[|polls| - 1].reply)
  }

  /** The clock, the server and the person who may press Ctrl-C. */
  class World {
    var now: int
    var polls: seq<Poll>

    constructor ()
      ensures polls == []
    {
      now, polls := *, [];
    }

    method Sleep(seconds: int) returns (cancelled: bool)
      modifies this`now
      ensures !cancelled ==> now >= old(now) + seconds
    {
      cancelled := *;
      if !cancelled {
        var late: int :| late >= 0;
        now := now + seconds + late;
      }
    }

    method Ask() returns (reply: Reply)
      modifies this
      ensures polls == old(polls) + [Poll(old(now), reply)] && now >= old(now)
    {
      reply := *;
      polls := polls + [Poll(now, reply)];
      var slow: int :| slow >= 0;
      now := now + slow;
    }
  }

  lemma OneMorePoll(h: Handshake, began: int, polls: seq<Poll>, p: Poll)
    requires Paced(h, began, polls) && AllKeepWaiting(polls)
    requires LastTime(began, polls) + h.interval + Transients(polls) <= p.at <= began + h.expiresIn
    ensures Paced(h, began, polls + [p])
    ensures Transients(polls + [p]) == Transients(polls) + (if p.reply.Transient? then 1 else 0)
    ensures LastTime(began, polls + [p]) == p.at
    ensures if KeepsWaiting(p.reply) then AllKeepWaiting(polls + [p]) else Concluded(polls + [p], Conclude(p.reply))
  {
    var more := polls + [p];
    assert Earlier(more) == polls && more[..|polls|] == polls;
  }

  /** Every poll so far came in time and let the client wait on. */
  predicate Waiting(h: Handshake, began: int, polls: seq<Poll>, now: int) {
    now >= LastTime(began, polls) && AllKeepWaiting(polls) && Paced(h, began, polls)
  }

  method AskOnce(h: Handshake, w: World, ghost began: int, ghost interval: int) returns (reply: Reply)
    requires interval == h.interval + Transients(w.polls)
    requires Waiting(h, began, w.polls, w.now - interval) && w.now <= began + h.expiresIn
    modifies w
    ensures w.now >= old(w.now) && Paced(h, began, w.polls)
    ensures Transients(w.polls) == old(Transients(w.polls)) + (if reply.Transient? then 1 else 0)
    ensures if KeepsWaiting(reply) then Waiting(h, began, w.polls, w.now) else Concluded(w.polls, Conclude(reply))
  {
    ghost var before, at := w.polls, w.now;
    reply := w.Ask();
    OneMorePoll(h, began, before, Poll(at, reply));
  }

  /** The code is asked about until an answer, its end or the person stops it. */
  method PollDeviceFlow(h: Handshake, w: World) returns (r: Outcome)
    requires h.interval > 0 && h.expiresIn > 0 && w.polls == []
    modifies w
    ensures Paced(h, old(w.now), w.polls)
    ensures if r in {Cancelled, Expired} then AllKeepWaiting(w.polls) else Concluded(w.polls, r)
    ensures r == Expired ==> w.now > old(w.now) + h.expiresIn
  {
    ghost var began := w.now;
    var interval, deadline := h.interval, w.now + h.expiresIn;
    while true
      invariant interval == h.interval + Transients(w.polls) && interval > 0
      invariant Waiting(h, began, w.polls, w.now)
      decreases if w.now > deadline then 0 else deadline - w.now + 1
    {
      var cancelled := w.Sleep(interval);
      if cancelled {
        return Cancelled;
      }
      if w.now > deadline {
        return Expired;
      }
      var reply := AskOnce(h, w, began, interval);
      if reply.Transient? {
        interval := interval + 1;
        continue;
      }
      if !KeepsWaiting(reply) {
        return Conclude(reply);
      }
    }
  }

  // ---------- the bound ----------

  lemma {:induction false} TransientsGrow(polls: seq<Poll>, i: nat, j: nat)
    requires i <= j <= |polls|
    ensures Transients(polls[..i]) <= Transients(polls[..j]) <= Transients(polls[..i]) + (j - i)
    decreases j
  {
    if i < j {
      assert polls[..j][..j - 1] == polls[..j - 1];
      TransientsGrow(polls, i, j - 1);
    }
  }

  /** The client never asks faster than the server's interval, nor faster than before. */
  lemma WaitsNeverShrink(interval: int, polls: seq<Poll>, i: nat, j: nat)
    requires i <= j <= |polls|
    ensures interval <= Wait(interval, polls, i) <= Wait(interval, polls, j)
  {
    TransientsGrow(polls, i, j);
  }

  lemma {:induction false} WaitedAtLeast(interval: int, polls: seq<Poll>, k: nat)
    requires k <= |polls| + 1
    ensures Waited(interval, polls, k) >= k * interval
  {
    if k == 0 {
    } else {
      WaitedAtLeast(interval, polls, k - 1);
      assert k * interval == (k - 1) * interval + interval;
    }
  }

  lemma {:induction false} WaitedThroughOutage(interval: int, polls: seq<Poll>, k: nat)
    requires k <= |polls| && forall p | p in polls :: p.reply.Transient?
    ensures 2 * Waited(interval, polls, k) == 2 * (k * interval) + k * (k - 1)
  {
    if k == 0 {
    } else {
      WaitedThroughOutage(interval, polls, k - 1);
      AllTransient(polls, k - 1);
      assert k * interval == (k - 1) * interval + interval;
      assert k * (k - 1) == (k - 1) * (k - 2) + 2 * (k - 1);
    }
  }

  lemma {:induction false} AllTransient(polls: seq<Poll>, k: nat)
    requires k <= |polls| && forall p | p in polls :: p.reply.Transient?
    ensures Transients(polls[..k]) == k
  {
    if k == 0 {
    } else {
      assert polls[..k][..k - 1] == polls[..k - 1];
      assert polls[k - 1] in polls;
      AllTransient(polls, k - 1);
    }
  }

  lemma {:induction false} PacedEarlier(h: Handshake, began: int, polls: seq<Poll>, k: nat)
    requires Paced(h, began, polls) && k <= |polls|
    ensures Paced(h, began, polls[..k])
  {
    if k == |polls| {
      assert polls[..k] == polls;
    } else {
      PacedEarlier(h, began, Earlier(polls), k);
      assert Earlier(polls)[..k] == polls[..k];
    }
  }

  /** The k-th poll comes no sooner than the first k waits together, and within the lifetime. */
  lemma {:induction false} PollsComeLate(h: Handshake, began: int, polls: seq<Poll>, k: nat)
    requires Paced(h, began, polls) && 1 <= k <= |polls|
    ensures began + Waited(h.interval, polls, k) <= polls[k - 1].at <= began + h.expiresIn
  {
    PacedEarlier(h, began, polls, k);
    var made := polls[..k];
    assert Earlier(made) == polls[..k - 1] && made[..k - 1] == polls[..k - 1];
    if k <= 1 {
    } else {
      PollsComeLate(h, began, polls, k - 1);
    }
  }

  /** Polls in the lifetime: at most lifetime over interval, and in an outage fewer still. */
  lemma PollsAreBounded(h: Handshake, began: int, polls: seq<Poll>)
    requires polls != [] && Paced(h, began, polls)
    ensures Waited(h.interval, polls, |polls|) <= h.expiresIn
    ensures |polls| * h.interval <= h.expiresIn
    ensures (forall p | p in polls :: p.reply.Transient?) ==>
              2 * (|polls| * h.interval) + |polls| * (|polls| - 1) <= 2 * h.expiresIn
  {
    PollsComeLate(h, began, polls, |polls|);
    WaitedAtLeast(h.interval, polls, |polls|);
    if forall p | p in polls :: p.reply.Transient? {
      WaitedThroughOutage(h.interval, polls, |polls|);
    }
  }

  /** A sign-in is bounded whatever the server sent. */
  method SignIn(h: Handshake, w: World) returns (r: Outcome)
    requires w.polls == []
    modifies w
    ensures Paced(Defaulted(h), old(w.now), w.polls)
    ensures w.polls == [] || |w.polls| * Defaulted(h).interval <= Defaulted(h).expiresIn
  {
    r := PollDeviceFlow(Defaulted(h), w);
    if w.polls != [] {
      PollsAreBounded(Defaulted(h), old(w.now), w.polls);
    }
  }

  // ---------- what a reply and a number mean ----------

  /** A usable approval signs in; everything else that ends the wait has its own failure. */
  lemma RepliesConclude(status: Status, token: string)
    ensures Conclude(Gone) == NoLongerValid
    ensures Conclude(Refused) == Conclude(Unreadable) == Failed
    ensures token != "" ==> Conclude(Answer(Approved, token)) == SignedIn(token)
    ensures Conclude(Answer(Approved, "")) == NoToken
    ensures Conclude(Answer(Denied, token)) == Declined
    ensures Conclude(Answer(Claimed, token)) == AlreadyUsed
    ensures KeepsWaiting(Transient) && KeepsWaiting(Answer(Pending, token))
    ensures status != Pending ==> !KeepsWaiting(Answer(status, token))
  {
  }

  /** The server's own positive numbers stay; a missing one is three or six hundred seconds. */
  lemma NumbersAreDefaulted(h: Handshake)
    ensures Defaulted(h).interval > 0 && Defaulted(h).expiresIn > 0
    ensures h.interval > 0 ==> Defaulted(h).interval == h.interval
    ensures h.interval <= 0 ==> Defaulted(h).interval == 3
    ensures h.expiresIn > 0 ==> Defaulted(h).expiresIn == h.expiresIn
    ensures h.expiresIn <= 0 ==> Defaulted(h).expiresIn == 600
  {
  }
}
