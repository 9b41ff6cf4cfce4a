/** One stored OAuth connection shared by threads, processes and crashes: rotation of refresh tokens
    (section 10.4 of RFC 6749) and revocation receipts. */
module OAuthConnection {
  import opened Sums

  type Token = string
  type Issuer = string
  type ThreadId = nat

  /** `lineage` tells one sign-in's grant, through all its rotations, from every other's; the
      program has no such number. */
  datatype Grant = Grant(issuer: Issuer, client: string, refresh: Option<Token>, access: Token, lineage: nat)

  datatype ConnectionState = Connected | RefreshPending | Disconnected

  datatype Record = Record(grant: Grant, expires: int, state: ConnectionState, retired: Option<Grant>)

  /** The tokens of a valid reply. */
  datatype Reply = Reply(refresh: Option<Token>, access: Token, expires: int)

  // ---------------------------------------------------------------- one critical section each

  /** A new sign-in may not overwrite a grant whose revocation is still owed. */
  predicate Replaceable(stored: Option<Record>, here: Issuer) {
    stored.None?
    || (stored.value.grant.issuer == here && stored.value.retired.None? && !stored.value.state.Disconnected?)
  }

  predicate MustRefresh(record: Record, here: Issuer, now: int) {
    record.state.Connected? && record.grant.issuer == here && record.grant.refresh.Some? && record.expires <= now + 60
  }

  function Rotated(record: Record, reply: Reply): Record {
    Record(record.grant.(refresh := reply.refresh, access := reply.access), reply.expires, Connected, record.retired)
  }

  function SignedIn(stored: Option<Record>, here: Issuer, client: string, reply: Reply, lineage: nat): Record {
    Record(Grant(here, client, reply.refresh, reply.access, lineage), reply.expires, Connected,
           if stored.Some? then Some(stored.value.grant) else None)
  }

  /** What is left after a disconnect heard which revocations were confirmed. */
  function AfterRevocations(record: Record, currentGone: bool, retiredGone: bool): Option<Record> {
    if currentGone && (record.retired.None? || retiredGone) then None
    else if currentGone then Some(Record(record.retired.value, 0, Disconnected, None))
    else if retiredGone then Some(record.(retired := None))
    else Some(record)
  }

  // ---------------------------------------------------------------- the machine

  datatype Thread =
    | Refreshing(captured: Record)
    | Retiring(captured: Record, previous: Grant)
    | Disconnecting

  /** `sent` and `issued` count refresh tokens sent to the token endpoint and received from it;
      `revoked` are the lineages whose revocation the server confirmed. */
  datatype World = World(stored: Option<Record>, threads: map<ThreadId, Thread>, lineages: nat, revoked: set<nat>,
                         sent: multiset<Token>, issued: multiset<Token>)

  datatype Step =
    | RefreshBegin(thread: ThreadId, here: Issuer, now: int)
    | RefreshFinish(thread: ThreadId, reply: Option<Reply>)
    | SignIn(thread: ThreadId, here: Issuer, client: string, tokens: Reply)
    | RetireOld(thread: ThreadId, confirmed: bool)
    | DisconnectBegin(thread: ThreadId)
    | DisconnectFinish(thread: ThreadId, currentGone: bool, retiredGone: bool)
    | Die(thread: ThreadId)

  function Minted(issued: multiset<Token>, refresh: Option<Token>): multiset<Token> {
    if refresh.Some? then issued[refresh.value := issued[refresh.value] + 1] else issued
  }

  /** The state that forbids a second send is committed before the request leaves. */
  function DoRefreshBegin(w: World, t: ThreadId, here: Issuer, now: int): World {
    if t in w.threads || w.stored.None? || !MustRefresh(w.stored.value, here, now) then w
    else
      var pending := w.stored.value.(state := RefreshPending);
      w.(stored := Some(pending), threads := w.threads[t := Refreshing(pending)])
  }

  function DoRefreshFinish(w: World, t: ThreadId, reply: Option<Reply>): World {
    if t !in w.threads || !w.threads[t].Refreshing? then w
    else
      var record, done := w.threads[t].captured, w.(threads := w.threads - {t});
      if w.stored != Some(record) || record.grant.refresh.None? then done
      else
        var token := record.grant.refresh.value;
        var asked := done.(sent := w.sent[token := w.sent[token] + 1]);
        if reply.None? then asked
        else asked.(stored := Some(Rotated(record, reply.value)), issued := Minted(w.issued, reply.value.refresh))
  }

  function DoSignIn(w: World, t: ThreadId, here: Issuer, client: string, reply: Reply): World {
    if t in w.threads || !Replaceable(w.stored, here) then w
    else
      var record := SignedIn(w.stored, here, client, reply, w.lineages);
      var next := w.(stored := Some(record), lineages := w.lineages + 1, issued := Minted(w.issued, reply.refresh));
      if w.stored.Some? then next.(threads := w.threads[t := Retiring(record, w.stored.value.grant)]) else next
  }

  /** The old grant is revoked after the new one is durable; its receipt goes only then. */
  function DoRetireOld(w: World, t: ThreadId, confirmed: bool): World {
    if t !in w.threads || !w.threads[t].Retiring? then w
    else
      var k, done := w.threads[t], w.(threads := w.threads - {t});
      if !confirmed then done
      else
        done.(revoked := w.revoked + {k.previous.lineage},
              stored := if w.stored == Some(k.captured) then Some(k.captured.(retired := None)) else w.stored)
  }

  function DoDisconnectBegin(w: World, t: ThreadId): World {
    if t in w.threads || w.stored.None? then w
    else w.(stored := Some(w.stored.value.(state := Disconnected)), threads := w.threads[t := Disconnecting])
  }

  function DoDisconnectFinish(w: World, t: ThreadId, currentGone: bool, retiredGone: bool): World {
    if t !in w.threads || !w.threads[t].Disconnecting? then w
    else
      var done := w.(threads := w.threads - {t});
      if w.stored.None? then done
      else
        var record := w.stored.value;
        var known :=
            (if currentGone then {record.grant.lineage} else {})
            + (if retiredGone && record.retired.Some? then {record.retired.value.lineage} else {});
        done.(stored := AfterRevocations(record, currentGone, retiredGone && record.retired.Some?),
              revoked := w.revoked + known)
  }

  function Next(w: World, step: Step): World {
    match step
    case RefreshBegin(t, here, now) => DoRefreshBegin(w, t, here, now)
    case RefreshFinish(t, reply) => DoRefreshFinish(w, t, reply)
    case SignIn(t, here, client, reply) => DoSignIn(w, t, here, client, reply)
    case RetireOld(t, confirmed) => DoRetireOld(w, t, confirmed)
    case DisconnectBegin(t) => DoDisconnectBegin(w, t)
    case DisconnectFinish(t, currentGone, retiredGone) => DoDisconnectFinish(w, t, currentGone, retiredGone)
    case Die(t) => w.(threads := w.threads - {t})
  }

  function Run(w: World, steps: seq<Step>): World
    decreases |steps|
  {
    if steps == [] then w else Run(Next(w, steps[0]), steps[1..])
  }

  const NOBODY: World := World(None, map[], 0, {}, multiset{}, multiset{})

  // ---------------------------------------------------------------- a token is sent once

  predicate WaitsToSend(k: Thread, token: Token) {
    k.Refreshing? && k.captured.grant.refresh == Some(token)
  }

  function WaitingFor(threads: map<ThreadId, Thread>, token: Token): set<ThreadId> {
    set t | t in threads && WaitsToSend(threads[t], token)
  }

  function Usable(stored: Option<Record>, token: Token): nat {
    if stored.Some? && stored.value.state.Connected? && stored.value.grant.refresh == Some(token) then 1 else 0
  }

  /** Every send, every thread about to send, and a stored usable token are each paid for by one
      time the server issued it. */
  predicate Accounted(w: World, token: Token) {
    w.sent[token] + |WaitingFor(w.threads, token)| + Usable(w.stored, token) <= w.issued[token]
  }

  lemma WaitingWithout(threads: map<ThreadId, Thread>, t: ThreadId, token: Token)
    requires t in threads
    ensures |WaitingFor(threads - {t}, token)|
            == |WaitingFor(threads, token)| - (if WaitsToSend(threads[t], token) then 1 else 0)
  {
    assert WaitingFor(threads - {t}, token) == WaitingFor(threads, token) - {t};
  }

  lemma WaitingWith(threads: map<ThreadId, Thread>, t: ThreadId, k: Thread, token: Token)
    requires t !in threads
    ensures |WaitingFor(threads[t := k], token)|
            == |WaitingFor(threads, token)| + (if WaitsToSend(k, token) then 1 else 0)
  {
    assert WaitingFor(threads[t := k], token)
           == WaitingFor(threads, token) + (if WaitsToSend(k, token) then {t} else {});
  }

  lemma NextAccounted(w: World, step: Step, token: Token)
    requires Accounted(w, token)
    ensures Accounted(Next(w, step), token)
  {
    match step
    case RefreshBegin(t, here, now) =>
      if t !in w.threads && w.stored.Some? {
        WaitingWith(w.threads, t, Refreshing(w.stored.value.(state := RefreshPending)), token);
      }
    case RefreshFinish(t, reply) =>
      if t in w.threads {
        WaitingWithout(w.threads, t, token);
      }
    case SignIn(t, here, client, reply) =>
      if t !in w.threads && w.stored.Some? {
        WaitingWith(w.threads, t, Retiring(SignedIn(w.stored, here, client, reply, w.lineages), w.stored.value.grant),
                    token);
      }
    case RetireOld(t, _) =>
      if t in w.threads {
        WaitingWithout(w.threads, t, token);
      }
    case DisconnectBegin(t) =>
      if t !in w.threads {
        WaitingWith(w.threads, t, Disconnecting, token);
      }
    case DisconnectFinish(t, _, _) =>
      if t in w.threads {
        WaitingWithout(w.threads, t, token);
      }
    case Die(t) =>
      if t in w.threads {
        WaitingWithout(w.threads, t, token);
      } else {
        assert w.threads - {t} == w.threads;
      }
  }

  lemma {:induction false} RunAccounted(w: World, steps: seq<Step>, token: Token)
    requires Accounted(w, token)
    ensures Accounted(Run(w, steps), token)
    decreases |steps|
  {
    if steps != [] {
      NextAccounted(w, steps[0], token);
      RunAccounted(Next(w, steps[0]), steps[1..], token);
    }
  }

  /** Across threads, processes, lost replies and crashes, a refresh token is sent at most as often
      as the server issued it: with a server that rotates, at most once. */
  lemma TokenSentOnce(steps: seq<Step>, token: Token)
    ensures var w := Run(NOBODY, steps);
            w.sent[token] <= w.issued[token] && (w.issued[token] <= 1 ==> w.sent[token] <= 1)
  {
    assert WaitingFor(NOBODY.threads, token) == {};
    RunAccounted(NOBODY, steps, token);
  }

  /** The bound is reached: a server that issues a token again has it sent again. */
  lemma ReissuedTokenSentTwice(here: Issuer, client: string, token: Token, access: Token, now: int)
    ensures var reply := Reply(Some(token), access, now);
            var w := Run(NOBODY,
                         [SignIn(0, here, client, reply), RefreshBegin(1, here, now), RefreshFinish(1, Some(reply)),
                                  RefreshBegin(2, here, now), RefreshFinish(2, None)]);
            w.issued[token] == 2 && w.sent[token] == 2
  {
    var reply := Reply(Some(token), access, now);
    var steps := [SignIn(0, here, client, reply), RefreshBegin(1, here, now), RefreshFinish(1, Some(reply)),
                  RefreshBegin(2, here, now), RefreshFinish(2, None)];
    FiveSteps(NOBODY, steps);
    SentTwice(NOBODY, here, client, token, access, now);
  }

  lemma SentTwice(w: World, here: Issuer, client: string, token: Token, access: Token, now: int)
    requires w.threads == map[] && w.stored.None?
    ensures var reply := Reply(Some(token), access, now);
            var w1 := Next(w, SignIn(0, here, client, reply));
            var w3 := Next(Next(w1, RefreshBegin(1, here, now)), RefreshFinish(1, Some(reply)));
            var w5 := Next(Next(w3, RefreshBegin(2, here, now)), RefreshFinish(2, None));
            w5.issued[token] == w.issued[token] + 2 && w5.sent[token] == w.sent[token] + 2
  {
    var reply := Reply(Some(token), access, now);
    var w1 := Next(w, SignIn(0, here, client, reply));
    SentOnce(w1, 1, here, now, Some(reply));
    var w3 := Next(Next(w1, RefreshBegin(1, here, now)), RefreshFinish(1, Some(reply)));
    SentOnce(w3, 2, here, now, None);
  }

  /** A due refresh that runs through sends the stored token, and stores the one that comes back. */
  lemma SentOnce(w: World, t: ThreadId, here: Issuer, now: int, reply: Option<Reply>)
    requires w.threads == map[] && w.stored.Some? && MustRefresh(w.stored.value, here, now)
    ensures var token := w.stored.value.grant.refresh.value;
            var w' := Next(Next(w, RefreshBegin(t, here, now)), RefreshFinish(t, reply));
            && w'.threads == map[]
            && w'.sent == w.sent[token := w.sent[token] + 1]
            && w'.issued == (if reply.Some? then Minted(w.issued, reply.value.refresh) else w.issued)
            && (reply.Some? ==> w'.stored == Some(Rotated(w.stored.value, reply.value)))
  {
    var pending := w.stored.value.(state := RefreshPending);
    var began := Next(w, RefreshBegin(t, here, now));
    assert began.stored == Some(pending) && began.threads == map[t := Refreshing(pending)];
    assert began.threads - {t} == map[];
  }

  lemma FiveSteps(w: World, steps: seq<Step>)
    requires |steps| == 5
    ensures Run(w, steps) == Next(Next(Next(Next(Next(w, steps[0]), steps[1]), steps[2]), steps[3]), steps[4])
  {
    var w1 := Next(w, steps[0]);
    var w2 := Next(w1, steps[1]);
    var w3 := Next(w2, steps[2]);
    var w4 := Next(w3, steps[3]);
    assert steps[1..][1..] == steps[2..] && steps[2..][1..] == steps[3..] && steps[3..][1..] == steps[4..]
           && steps[4..][1..] == [];
    assert Run(w, steps) == Run(w1, steps[1..]) == Run(w2, steps[2..]) == Run(w3, steps[3..]) == Run(w4, steps[4..]);
    assert Run(w4, steps[4..]) == Run(Next(w4, steps[4]), []);
  }

  // ---------------------------------------------------------------- a grant is kept until revoked

  predicate Kept(stored: Option<Record>, lineage: nat) {
    stored.Some?
    && (stored.value.grant.lineage == lineage
       || (stored.value.retired.Some? && stored.value.retired.value.lineage == lineage))
  }

  /** Every grant ever signed in is in the store, current or retired, or is confirmed revoked. */
  predicate GrantsKept(w: World) {
    && (forall g: nat | g < w.lineages :: Kept(w.stored, g) || g in w.revoked)
    && (forall t | t in w.threads && w.threads[t].Retiring? ::
         w.threads[t].captured.retired == Some(w.threads[t].previous))
  }

  lemma NextKept(w: World, step: Step)
    requires GrantsKept(w)
    ensures GrantsKept(Next(w, step))
  {
    var w' := Next(w, step);
    forall g: nat | g < w'.lineages ensures Kept(w'.stored, g) || g in w'.revoked {
      if g < w.lineages {
        assert Kept(w.stored, g) || g in w.revoked;
      }
    }
  }

  /** However sign-ins, refreshes and disconnects interleave or die: a replaced or disconnected
      grant stays in the store until its revocation is confirmed. */
  lemma {:induction false} KeptUntilRevoked(w: World, steps: seq<Step>)
    requires GrantsKept(w)
    ensures GrantsKept(Run(w, steps))
    ensures forall g: nat | g < Run(w, steps).lineages && g !in Run(w, steps).revoked :: Kept(Run(w, steps).stored, g)
    decreases |steps|
  {
    if steps != [] {
      NextKept(w, steps[0]);
      KeptUntilRevoked(Next(w, steps[0]), steps[1..]);
    }
  }

  // ---------------------------------------------------------------- the service

  datatype Pending = Pending(state: string, issuer: Issuer, expires: int)

  /** The stored record and this process's pending sign-in. */
  class Service {
    var stored: Option<Record>
    var pending: Option<Pending>

    /** A pending sign-in that has not expired is not replaced. */
    method Start(here: Issuer, state: string, now: int) returns (started: bool)
      modifies this`pending
      ensures started ==
              (&& (stored.Some? ==> stored.value.grant.issuer == here && stored.value.retired.None?
                                    && !stored.value.state.Disconnected?)
               && (old(pending).Some? ==> old(pending).value.expires <= now))
      ensures pending == if started then Some(Pending(state, here, now + 600)) else old(pending)
    {
      started := false;
      if stored.Some?
         && (stored.value.grant.issuer != here || stored.value.retired.Some? || stored.value.state.Disconnected?) {
        return;
      }
      if pending.Some? && pending.value.expires > now {
        return;
      }
      pending := Some(Pending(state, here, now + 600));
      started := true;
    }

    /** A matching callback uses the pending sign-in up before anything is exchanged, even if the
        exchange then fails; the answer says whether the old grant has to be revoked. */
    method Complete(here: Issuer, state: string, now: int, client: string, reply: Option<Reply>, lineage: nat)
      returns (signedIn: bool, previous: Option<Grant>)
      modifies this
      ensures var matched := old(pending).Some? && old(pending).value.expires > now
              && old(pending).value.state == state && old(pending).value.issuer == here;
              && pending == (if matched then None else old(pending))
              && signedIn == (matched && reply.Some? && Replaceable(old(stored), here))
      ensures stored == if signedIn then Some(SignedIn(old(stored), here, client, reply.value, lineage))
                        else old(stored)
      ensures previous == if signedIn && old(stored).Some? then Some(old(stored).value.grant) else None
    {
      signedIn, previous := false, None;
      if pending.None? || pending.value.expires <= now || pending.value.state != state || pending.value.issuer != here {
        return;
      }
      pending := None;
      if !Replaceable(stored, here) || reply.None? {
        return;
      }
      var record := Record(Grant(here, client, reply.value.refresh, reply.value.access, lineage),
                           reply.value.expires, Connected, None);
      if stored.Some? {
        previous := Some(stored.value.grant);
        record := record.(retired := previous);
      }
      stored := Some(record);
      signedIn := true;
    }

    /** A usable token, or the record to refresh, already committed as pending. */
    method BeginAccess(here: Issuer, now: int) returns (token: Option<Token>, refresh: Option<Record>)
      modifies this`stored
      ensures refresh.Some? <==>
              && old(stored).Some? && old(stored).value.state.Connected? && old(stored).value.grant.issuer == here
              && old(stored).value.grant.refresh.Some? && old(stored).value.expires <= now + 60
      ensures token.Some? <==>
              && old(stored).Some? && old(stored).value.state.Connected? && old(stored).value.grant.issuer == here
              && old(stored).value.expires > now + if old(stored).value.grant.refresh.Some? then 60 else 0
      ensures refresh.Some?
              ==> refresh == Some(old(stored).value.(state := RefreshPending)) && stored == refresh && token.None?
      ensures refresh.None? ==> stored == old(stored)
      ensures token.Some? ==>
                old(stored).Some? && token.value == old(stored).value.grant.access && old(stored).value.expires > now
    {
      token, refresh := None, None;
      if stored.None? || !stored.value.state.Connected? || stored.value.grant.issuer != here {
        return;
      }
      var record := stored.value;
      if record.grant.refresh.None? {
        if record.expires > now {
          token := Some(record.grant.access);
        }
        return;
      }
      if record.expires > now + 60 {
        token := Some(record.grant.access);
        return;
      }
      stored := Some(record.(state := RefreshPending));
      refresh := stored;
    }

    /** Sends the token only if the record is still the one committed. */
    method FinishAccess(record: Record, reply: Option<Reply>) returns (asked: bool)
      modifies this`stored
      ensures asked == (old(stored) == Some(record))
      ensures stored == if asked && reply.Some? then Some(Rotated(record, reply.value)) else old(stored)
    {
      asked := stored == Some(record);
      if asked && reply.Some? {
        var updated := Record(record.grant.(refresh := reply.value.refresh, access := reply.value.access),
                              reply.value.expires, Connected, None);
        if record.retired.Some? {
          updated := updated.(retired := record.retired);
        }
        stored := Some(updated);
      }
    }

    /** The second transaction of a disconnect, told what the server confirmed. */
    method FinishDisconnect(currentGone: bool, retiredGone: bool) returns (revoked: bool)
      modifies this`stored
      ensures old(stored).None? ==> revoked && stored.None?
      ensures old(stored).Some? ==>
                var retired := old(stored).value.retired;
                && stored == AfterRevocations(old(stored).value, currentGone, retiredGone && retired.Some?)
                && revoked == stored.None?
    {
      if stored.None? {
        return true;
      }
      var record := stored.value;
      var cleared := record.retired.None? || retiredGone;
      if currentGone && cleared {
        stored := None;
      } else if currentGone {
        stored := Some(Record(record.retired.value, 0, Disconnected, None));
      } else if cleared && record.retired.Some? {
        stored := Some(record.(retired := None));
      }
      revoked := currentGone && cleared;
    }
  }
}
