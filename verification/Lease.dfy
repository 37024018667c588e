/**
The control lease of both agents: one writer at a time, identified by a random token and an
epoch, for a bounded time.  Clock readings and tokens are inputs; a call reads the clock once to
expire the lease and possibly once more, later, to set a new expiry.
*/
module Lease {
  import opened Wrappers

  /** No lease is held when the token is empty. */
  datatype Lease = Lease(token: string, epoch: nat, expires: real)

  datatype Action =
    | Acquire(token: string, requested: Option<real>)
    | Renew(token: string, requested: Option<real>)
    | Release(token: string)
    | Check(token: string)      // the first precondition of every write
    | Observe                   // control_state

  datatype Event = Event(action: Action, now: real, stamp: real)

  datatype Answer = Granted | Held | Refused | BadDuration | Accepted

  function Free(l: Lease): Lease {
    Lease("", l.epoch, 0.0)
  }

  function Expire(l: Lease, now: real): Lease {
    if l.token != "" && now >= l.expires then Free(l) else l
  }

  /** The granted duration, or None for a value that is rejected. */
  function Duration(maximum: real, requested: Option<real>): Option<real> {
    if requested == None || requested == Some(0.0) then Some(maximum)
    else if requested.value <= 0.0 then None
    else Some(if requested.value < maximum then requested.value else maximum)
  }

  predicate Holds(l: Lease, token: string) {
    token != "" && token == l.token
  }

  function Step(maximum: real, l0: Lease, e: Event): (Lease, Answer) {
    var l := Expire(l0, e.now);
    match e.action
    case Acquire(token, requested) =>
      if l.token != "" then (l, Held)
      else
        (match Duration(maximum, requested)
         case None => (l, BadDuration)
         case Some(d) => (Lease(token, l.epoch + 1, e.stamp + d), Granted))
    case Renew(token, requested) =>
      if !Holds(l, token) then (l, Refused)
      else
        (match Duration(maximum, requested)
         case None => (l, BadDuration)
         case Some(d) => (l.(expires := e.stamp + d), Granted))
    case Release(token) => if Holds(l, token) then (Free(l), Accepted) else (l, Refused)
    case Check(token) => (l, if Holds(l, token) then Accepted else Refused)
    case Observe => (l, Accepted)
  }

  const START := Lease("", 0, 0.0)

  function After(maximum: real, events: seq<Event>): Lease {
    if events == [] then START
    else Step(maximum, After(maximum, events[..|events| - 1]), events[|events| - 1]).0
  }

  function AnswerAt(maximum: real, events: seq<Event>, i: nat): Answer
    requires i < |events|
  {
    Step(maximum, After(maximum, events[..i]), events[i]).1
  }

  predicate Acquired(maximum: real, events: seq<Event>, i: nat)
    requires i < |events|
  {
    events[i].action.Acquire? && AnswerAt(maximum, events, i) == Granted
  }

  /** The clock never goes back. */
  predicate Monotone(events: seq<Event>) {
    && (forall i | 0 <= i < |events| :: events[i].now <= events[i].stamp)
    && (forall i, j | 0 <= i < j < |events| :: events[i].stamp <= events[j].now)
  }

  /** Tokens are random: none is empty and none comes twice. */
  predicate FreshTokens(events: seq<Event>) {
    && (forall i | 0 <= i < |events| && events[i].action.Acquire? :: events[i].action.token != "")
    && (forall i, j | 0 <= i < j < |events| && events[i].action.Acquire? && events[j].action.Acquire? ::
          events[i].action.token != events[j].action.token)
  }

  /** The token of the latest successful acquire. */
  function LastGranted(maximum: real, events: seq<Event>): string {
    if events == [] then ""
    else
      var k := |events| - 1;
      if Acquired(maximum, events, k) then events[k].action.token else LastGranted(maximum, events[..k])
  }

  function Grants(maximum: real, events: seq<Event>): nat {
    if events == [] then 0
    else
      var k := |events| - 1;
      Grants(maximum, events[..k]) + if Acquired(maximum, events, k) then 1 else 0
  }

  function Clock(events: seq<Event>): real
    requires events != []
  {
    events[|events| - 1].stamp
  }

  lemma {:induction false} RunInvariants(maximum: real, events: seq<Event>)
    ensures var l := After(maximum, events);
            && (l.token == "" || l.token == LastGranted(maximum, events))
            && l.epoch == Grants(maximum, events)
            && (events != [] && Monotone(events) && l.token != "" ==> l.expires <= Clock(events) + maximum)
    decreases |events|
  {
    if events != [] {
      var init := events[..|events| - 1];
      RunInvariants(maximum, init);
      assert Monotone(events) ==> Monotone(init);
      if Monotone(events) && init != [] { assert Clock(init) <= Clock(events); }
      if init == [] { assert After(maximum, init) == START; }
    }
  }

  /** The epochs handed out strictly increase. */
  lemma EpochsIncrease(maximum: real, events: seq<Event>, i: nat, j: nat)
    requires i < j < |events|
    requires Acquired(maximum, events, i) && Acquired(maximum, events, j)
    ensures After(maximum, events[..i + 1]).epoch < After(maximum, events[..j + 1]).epoch
  {
    EpochGrows(maximum, events, i + 1, j);
    assert events[..j + 1][..j] == events[..j];
  }

  lemma {:induction false} EpochGrows(maximum: real, events: seq<Event>, i: nat, j: nat)
    requires i <= j <= |events|
    ensures After(maximum, events[..i]).epoch <= After(maximum, events[..j]).epoch
    decreases j
  {
    if i < j {
      EpochGrows(maximum, events, i, j - 1);
      assert events[..j][..j - 1] == events[..j - 1];
    }
  }

  /** Only the latest granted token is ever accepted. */
  lemma OnlyTheLatestIsLive(maximum: real, events: seq<Event>, k: nat)
    requires k < |events|
    requires events[k].action.Check? || events[k].action.Renew? || events[k].action.Release?
    requires AnswerAt(maximum, events, k) != Refused
    ensures events[k].action.token == LastGranted(maximum, events[..k]) != ""
  {
    RunInvariants(maximum, events[..k]);
  }

  /** Fencing: once a later acquire succeeded, an earlier token is refused forever, in whatever
      order calls, expiries and releases come. */
  lemma Fenced(maximum: real, events: seq<Event>, i: nat, j: nat, k: nat)
    requires FreshTokens(events)
    requires i < j < k < |events|
    requires Acquired(maximum, events, i) && Acquired(maximum, events, j)
    requires events[k].action.Check? || events[k].action.Renew? || events[k].action.Release?
    requires events[k].action.token == events[i].action.token
    ensures AnswerAt(maximum, events, k) == Refused
  {
    RunInvariants(maximum, events[..k]);
    assert events[..k][..j] == events[..j];
    LatestIsNotBefore(maximum, events[..k], j);
  }

  lemma {:induction false} LatestIsNotBefore(maximum: real, events: seq<Event>, j: nat)
    requires j < |events| && Acquired(maximum, events, j)
    ensures exists m :: j <= m < |events| && events[m].action.Acquire?
                        && events[m].action.token == LastGranted(maximum, events)
    decreases |events|
  {
    var k := |events| - 1;
    if !Acquired(maximum, events, k) {
      var init := events[..k];
      assert init[..j] == events[..j];
      LatestIsNotBefore(maximum, init, j);
      var m :| j <= m < |init| && init[m].action.Acquire? && init[m].action.token == LastGranted(maximum, init);
      assert events[m] == init[m];
    }
  }

  /** A lease that nobody renews expires: once the clock has advanced by the configured maximum
      since the last grant, no token is accepted, and an acquire is not turned away as held. */
  lemma UnrenewedExpires(maximum: real, events: seq<Event>, i: nat, k: nat)
    requires Monotone(events) && 0 < i <= k < |events|
    requires forall j | i <= j < k :: AnswerAt(maximum, events, j) != Granted
    requires events[k].now >= Clock(events[..i]) + maximum
    ensures Expire(After(maximum, events[..k]), events[k].now).token == ""
    ensures AnswerAt(maximum, events, k) != Held
  {
    RunInvariants(maximum, events[..i]);
    ExpiryStands(maximum, events, i, k);
  }

  /** A step that grants nothing leaves the lease alone or frees it. */
  lemma UngrantedStep(maximum: real, events: seq<Event>, k: nat)
    requires k < |events| && AnswerAt(maximum, events, k) != Granted
    ensures var before, after := After(maximum, events[..k]), After(maximum, events[..k + 1]);
            after.token == "" || (after.token == before.token && after.expires == before.expires)
  {
    assert events[..k + 1][..k] == events[..k];
  }

  lemma {:induction false} ExpiryStands(maximum: real, events: seq<Event>, i: nat, k: nat)
    requires i <= k <= |events|
    requires forall j | i <= j < k :: AnswerAt(maximum, events, j) != Granted
    ensures var before, after := After(maximum, events[..i]), After(maximum, events[..k]);
            after.token == "" || (after.token == before.token && after.expires == before.expires)
    decreases k
  {
    if i < k {
      ExpiryStands(maximum, events, i, k - 1);
      assert AnswerAt(maximum, events, k - 1) != Granted;
      UngrantedStep(maximum, events, k - 1);
    }
  }

  // ---------------------------------------------------------------- how long a grant lasts

  /** The duration that a caller asked for, if any. */
  function Requested(e: Event): Option<real>
    requires e.action.Acquire? || e.action.Renew?
  {
    e.action.requested
  }

  /** A grant lasts as long as was asked for, but no longer than the maximum, which is also what a
      caller gets who asks for nothing. */
  predicate Lasts(maximum: real, requested: Option<real>, d: real) {
    if requested.None? || requested.value == 0.0 then d == maximum
    else d <= maximum && d <= requested.value && (d == maximum || d == requested.value)
  }

  /** A grant that later calls may still build on. */
  predicate GrantedFor(maximum: real, events: seq<Event>, i: nat, d: real)
    requires i < |events|
  {
    && AnswerAt(maximum, events, i) == Granted && events[i].action.token != ""
    && (events[i].action.Acquire? || events[i].action.Renew?)
    && Lasts(maximum, Requested(events[i]), d)
  }

  predicate Released(maximum: real, events: seq<Event>, j: nat)
    requires j < |events|
  {
    events[j].action.Release? && AnswerAt(maximum, events, j) == Accepted
  }

  /** Nothing has been granted or released from i up to k. */
  predicate Undisturbed(maximum: real, events: seq<Event>, i: nat, k: nat)
    requires k <= |events|
  {
    forall j | i <= j < k :: AnswerAt(maximum, events, j) != Granted && !Released(maximum, events, j)
  }

  /** The lease of that grant, or nothing any more after it has run out. */
  predicate Stands(l: Lease, token: string, expires: real, now: real) {
    if l.token == "" then now >= expires else l.token == token && l.expires == expires
  }

  lemma OneStep(maximum: real, events: seq<Event>, k: nat)
    requires k < |events|
    ensures (After(maximum, events[..k + 1]), AnswerAt(maximum, events, k))
            == Step(maximum, After(maximum, events[..k]), events[k])
  {
    assert events[..k + 1][..k] == events[..k];
  }

  /** A grant sets token and expiry. */
  lemma GrantBegins(maximum: real, l: Lease, e: Event, d: real)
    requires (e.action.Acquire? || e.action.Renew?) && e.action.token != "" && Lasts(maximum, Requested(e), d)
    requires Step(maximum, l, e).1 == Granted
    ensures Stands(Step(maximum, l, e).0, e.action.token, e.stamp + d, e.stamp)
    ensures Step(maximum, l, e).0.token != ""
  {
  }

  lemma StandsOn(maximum: real, l: Lease, e: Event, token: string, expires: real, before: real)
    requires Stands(l, token, expires, before) && token != "" && before <= e.now <= e.stamp
    requires Step(maximum, l, e).1 != Granted && !(e.action.Release? && Step(maximum, l, e).1 == Accepted)
    ensures Stands(Step(maximum, l, e).0, token, expires, e.stamp)
  {
  }

  lemma BeginsAt(maximum: real, events: seq<Event>, i: nat, d: real)
    requires i < |events| && GrantedFor(maximum, events, i, d)
    ensures Stands(After(maximum, events[..i + 1]), events[i].action.token, events[i].stamp + d, events[i].stamp)
  {
    OneStep(maximum, events, i);
    GrantBegins(maximum, After(maximum, events[..i]), events[i], d);
  }

  lemma StandsAt(maximum: real, events: seq<Event>, j: nat, token: string, expires: real)
    requires Monotone(events) && 0 < j < |events| && token != "" && Undisturbed(maximum, events, j, j + 1)
    requires Stands(After(maximum, events[..j]), token, expires, events[j - 1].stamp)
    ensures Stands(After(maximum, events[..j + 1]), token, expires, events[j].stamp)
  {
    OneStep(maximum, events, j);
    assert events[j - 1].stamp <= events[j].now <= events[j].stamp;
    StandsOn(maximum, After(maximum, events[..j]), events[j], token, expires, events[j - 1].stamp);
  }

  lemma {:induction false} GrantStands(maximum: real, events: seq<Event>, i: nat, k: nat, d: real)
    requires Monotone(events) && i < k <= |events| && GrantedFor(maximum, events, i, d)
    requires Undisturbed(maximum, events, i + 1, k)
    ensures Stands(After(maximum, events[..k]), events[i].action.token, events[i].stamp + d, events[k - 1].stamp)
    decreases k
  {
    if i + 1 < k {
      GrantStands(maximum, events, i, k - 1, d);
      StandsAt(maximum, events, k - 1, events[i].action.token, events[i].stamp + d);
    } else {
      BeginsAt(maximum, events, i, d);
    }
  }

  /** How long a grant lasts, over every run: until another grant or release, its token -- and no other --
      is taken by checks, renewals and releases, and new acquires are turned away as held, exactly as
      long as the clock has not advanced by the granted duration. */
  lemma AcceptedIff(maximum: real, events: seq<Event>, i: nat, k: nat, d: real)
    requires Monotone(events) && i < k < |events| && GrantedFor(maximum, events, i, d)
    requires Undisturbed(maximum, events, i + 1, k)
    ensures var live, action := events[k].now < events[i].stamp + d, events[k].action;
            && (action.Acquire? ==> (AnswerAt(maximum, events, k) == Held <==> live))
            && (action.Check? || action.Renew? || action.Release? ==>
                  (AnswerAt(maximum, events, k) != Refused <==> live && action.token == events[i].action.token))
  {
    GrantStands(maximum, events, i, k, d);
    assert events[k - 1].stamp <= events[k].now;
  }

  /** A call that is not turned away gets what it asked for, unless the duration is negative. */
  lemma GrantedIff(maximum: real, events: seq<Event>, k: nat)
    requires k < |events| && (events[k].action.Acquire? || events[k].action.Renew?)
    requires AnswerAt(maximum, events, k) != Held && AnswerAt(maximum, events, k) != Refused
    ensures var requested := Requested(events[k]);
            AnswerAt(maximum, events, k) == Granted <==> requested.None? || requested.value >= 0.0
  {
  }

  /** Nobody holds the lease before the first grant, nor from a release to the next grant: no token is
      taken, and no acquire is turned away as held. */
  lemma FreeUntilGranted(maximum: real, events: seq<Event>, i: nat, k: nat)
    requires i <= k < |events| && (i == 0 || Released(maximum, events, i - 1))
    requires forall j | i <= j < k :: AnswerAt(maximum, events, j) != Granted
    ensures AnswerAt(maximum, events, k) != Held
    ensures events[k].action.Check? || events[k].action.Renew? || events[k].action.Release? ==>
              AnswerAt(maximum, events, k) == Refused
  {
    if i > 0 { OneStep(maximum, events, i - 1); }
    ExpiryStands(maximum, events, i, k);
  }
}
