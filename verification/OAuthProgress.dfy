/** What the stored connection's transactions do: exactly when a sign-in, a refresh or a disconnect takes
    effect, and what it leaves in the store. */
module OAuthProgress {
  import opened Sums
  import opened OAuthConnection

  /** A sign-in is stored exactly when nothing is stored or what is stored is this issuer's, connected or
      waiting for its refresh, and owes no revocation; the grant before is kept as retired and its
      revocation begins. */
  lemma SignInStores(w: World, t: ThreadId, here: Issuer, client: string, reply: Reply)
    requires t !in w.threads
    ensures var w' := Next(w, SignIn(t, here, client, reply));
            if w.stored.None?
               || (w.stored.value.grant.issuer == here && w.stored.value.retired.None?
                   && (w.stored.value.state.Connected? || w.stored.value.state.RefreshPending?))
            then
              && w'.stored == Some(Record(Grant(here, client, reply.refresh, reply.access, w.lineages), reply.expires,
                                          Connected, if w.stored.Some? then Some(w.stored.value.grant) else None))
              && w'.lineages == w.lineages + 1 && w'.revoked == w.revoked && w'.sent == w.sent
              && w'.threads == (if w.stored.None? then w.threads
                                else w.threads[t := Retiring(w'.stored.value, w.stored.value.grant)])
            else w' == w
  {
  }

  /** The revocation of a replaced grant, once confirmed, clears it from the store it was put in, and
      from no later one. */
  lemma RetiredIsCleared(w: World, t: ThreadId, confirmed: bool)
    requires t in w.threads && w.threads[t].Retiring?
    ensures var w', k := Next(w, RetireOld(t, confirmed)), w.threads[t];
            && w'.threads == w.threads - {t} && w'.lineages == w.lineages
            && w'.revoked == w.revoked + (if confirmed then {k.previous.lineage} else {})
            && w'.stored == if confirmed && w.stored == Some(k.captured) then Some(k.captured.(retired := None))
                            else w.stored
  {
  }

  /** A refresh is begun exactly when a connected grant of this issuer that can be refreshed has a minute
      or less to live, and the store then says so. */
  lemma RefreshBegunExactly(w: World, t: ThreadId, here: Issuer, now: int)
    requires t !in w.threads
    ensures var w' := Next(w, RefreshBegin(t, here, now));
            if w.stored.Some? && w.stored.value.state.Connected? && w.stored.value.grant.issuer == here
               && w.stored.value.grant.refresh.Some? && w.stored.value.expires <= now + 60
            then
              && w'.stored == Some(w.stored.value.(state := RefreshPending))
              && w' == w.(stored := w'.stored, threads := w.threads[t := Refreshing(w'.stored.value)])
            else w' == w
  {
  }

  /** The record as a reply renews it: its tokens and expiry are the reply's, and everything else is as it
      was, with an owed revocation still owed. */
  predicate Renewed(record: Record, reply: Reply, record': Record) {
    && record'.state.Connected? && record'.expires == reply.expires && record'.retired == record.retired
    && record'.grant.refresh == reply.refresh && record'.grant.access == reply.access
    && record'.grant.issuer == record.grant.issuer && record'.grant.client == record.grant.client
    && record'.grant.lineage == record.grant.lineage
  }

  /** The begun refresh sends the token while the store is as it left it, and a reply renews the record;
      without a reply it stays pending, and if the store has moved on nothing is sent or written. */
  lemma RefreshFinished(w: World, t: ThreadId, reply: Option<Reply>)
    requires t in w.threads && w.threads[t].Refreshing? && w.threads[t].captured.grant.refresh.Some?
    ensures var w', record := Next(w, RefreshFinish(t, reply)), w.threads[t].captured;
            var token := record.grant.refresh.value;
            && w'.threads == w.threads - {t} && w'.lineages == w.lineages && w'.revoked == w.revoked
            && (w.stored != Some(record) ==> w'.stored == w.stored && w'.sent == w.sent && w'.issued == w.issued)
            && (w.stored == Some(record) ==>
                  && w'.sent == w.sent[token := w.sent[token] + 1]
                  && (reply.None? ==> w'.stored == w.stored && w'.issued == w.issued)
                  && (reply.Some? ==> w'.stored.Some? && Renewed(record, reply.value, w'.stored.value)))
  {
  }

  // ---------------------------------------------------------------- what nobody else touches

  /** The steps that leave a pending refresh to its own thread: nobody disconnects or signs in again, and
      nobody clears a retired grant. */
  predicate LeavesPending(step: Step, t: ThreadId) {
    match step
    case RefreshBegin(_, _, _) => true
    case RefreshFinish(u, _) => u != t
    case Die(u) => u != t
    case _ => false
  }

  /** The refresh of this thread is the one the store waits for, and no other thread waits with it. */
  predicate WaitsAlone(w: World, t: ThreadId) {
    && t in w.threads && w.threads[t].Refreshing? && w.stored == Some(w.threads[t].captured)
    && w.stored.value.state.RefreshPending?
    && forall u | u in w.threads && w.threads[u].Refreshing? && u != t :: w.threads[u].captured != w.threads[t].captured
  }

  /** A refresh that began alone renews the record when its reply comes, however many other threads asked
      for a token meanwhile: none of them sends it. */
  lemma {:induction false} RefreshRenews(w: World, t: ThreadId, steps: seq<Step>, reply: Reply)
    requires WaitsAlone(w, t) && w.threads[t].captured.grant.refresh.Some?
    requires forall i | 0 <= i < |steps| :: LeavesPending(steps[i], t)
    ensures var w' := Next(Run(w, steps), RefreshFinish(t, Some(reply)));
            && w'.stored.Some? && Renewed(w.threads[t].captured, reply, w'.stored.value)
            && Run(w, steps).sent[w.threads[t].captured.grant.refresh.value]
               == w.sent[w.threads[t].captured.grant.refresh.value]
    decreases |steps|
  {
    if steps == [] {
      RefreshFinished(w, t, Some(reply));
    } else {
      OthersWait(w, t, steps[0]);
      RefreshRenews(Next(w, steps[0]), t, steps[1..], reply);
    }
  }

  lemma OthersWait(w: World, t: ThreadId, step: Step)
    requires WaitsAlone(w, t) && LeavesPending(step, t)
    ensures WaitsAlone(Next(w, step), t) && Next(w, step).threads[t] == w.threads[t]
    ensures Next(w, step).sent == w.sent
  {
  }

  // ---------------------------------------------------------------- disconnecting

  /** Of two stored grants, the current one is the later sign-in. */
  predicate LineagesOrdered(w: World) {
    w.stored.Some? ==>
      && w.stored.value.grant.lineage < w.lineages
      && (w.stored.value.retired.Some? ==> w.stored.value.retired.value.lineage < w.stored.value.grant.lineage)
  }

  lemma StepOrdered(w: World, step: Step)
    requires LineagesOrdered(w) && RefreshesOrdered(w)
    ensures LineagesOrdered(Next(w, step)) && RefreshesOrdered(Next(w, step))
  {
  }

  /** What threads captured is as the store was. */
  predicate RefreshesOrdered(w: World) {
    forall t | t in w.threads && !w.threads[t].Disconnecting? :: CapturedOrdered(w.threads[t].captured, w.lineages)
  }

  predicate CapturedOrdered(record: Record, lineages: nat) {
    && record.grant.lineage < lineages
    && (record.retired.Some? ==> record.retired.value.lineage < record.grant.lineage)
  }

  lemma {:induction false} RunOrdered(w: World, steps: seq<Step>)
    requires LineagesOrdered(w) && RefreshesOrdered(w)
    ensures LineagesOrdered(Run(w, steps)) && RefreshesOrdered(Run(w, steps))
    decreases |steps|
  {
    if steps != [] {
      StepOrdered(w, steps[0]);
      RunOrdered(Next(w, steps[0]), steps[1..]);
    }
  }

  /** A disconnect is recorded before anything is revoked. */
  lemma DisconnectBegins(w: World, t: ThreadId)
    requires t !in w.threads && w.stored.Some?
    ensures Next(w, DisconnectBegin(t)) ==
            w.(stored := Some(w.stored.value.(state := Disconnected)), threads := w.threads[t := Disconnecting])
  {
  }

  /** After a disconnect, in every reachable state, exactly the grants whose revocation was confirmed are
      gone from the store, and the record of what remains stays disconnected if it was. */
  lemma DisconnectKeepsExactly(steps: seq<Step>, t: ThreadId, currentGone: bool, retiredGone: bool, g: nat)
    requires var w := Run(NOBODY, steps); t in w.threads && w.threads[t].Disconnecting? && w.stored.Some?
    ensures var w := Run(NOBODY, steps);
            var w', record := Next(w, DisconnectFinish(t, currentGone, retiredGone)), w.stored.value;
            && (Kept(w'.stored, g) <==>
                  || (g == record.grant.lineage && !currentGone)
                  || (record.retired.Some? && g == record.retired.value.lineage && !retiredGone))
            && (g in w'.revoked <==> g in w.revoked || (Kept(w.stored, g) && !Kept(w'.stored, g)))
            && (w'.stored.Some? && record.state.Disconnected? ==> w'.stored.value.state.Disconnected?)
            && (w'.stored.None? <==> currentGone && (record.retired.None? || retiredGone))
  {
    RunOrdered(NOBODY, steps);
  }
}
