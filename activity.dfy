/** Short-lived indicators of peer activity: the "is typing" map, which
    decays on a timer, and the "online" notes merged into the status line.
    The clock (`Date.now()`) is an explicit argument. */
module Activity {
  import opened Base

  /** The timer set by a `typing` event fires this many milliseconds later. */
  const TYPING_CHECK_DELAY: int := 1500
  /** The timer evicts an entry older than this many milliseconds. */
  const TYPING_STALE_AFTER: int := 1400

  /** `typing{username}`: the user's last-seen time becomes `now`; the
      other users are untouched. */
  function Seen(typing: map<string, int>, user: string, now: int): (r: map<string, int>)
    ensures r.Keys == typing.Keys + {user} && r[user] == now
    ensures forall u :: u in typing && u != user ==> r[u] == typing[u]
  {
    typing[user := now]
  }

  /** The timer callback, run at time `now`: the entry is dropped only if it
      is older than the stale limit; a refreshed entry survives, and an
      entry that is already gone stays gone (`Date.now() - undefined` is
      NaN, which is not greater than the limit). */
  function Expire(typing: map<string, int>, user: string, now: int): (r: map<string, int>)
    ensures user in r <==> user in typing && now - typing[user] <= TYPING_STALE_AFTER
    ensures forall u :: u != user ==> (u in r <==> u in typing)
    ensures forall u :: u in r ==> u in typing && r[u] == typing[u]
  {
    if user in typing && now - typing[user] > TYPING_STALE_AFTER then typing - {user} else typing
  }

  /** The timer scheduled by the most recent event always evicts, so an
      entry is gone by the time the last event's check has run... */
  lemma LastCheckEvicts(typing: map<string, int>, user: string, at: int)
    ensures user !in Expire(Seen(typing, user, at), user, at + TYPING_CHECK_DELAY)
  {
  }

  /** ...while a check that fires no later than the stale limit after the
      most recent event never evicts: decay is measured from the last event. */
  lemma EarlyCheckKeeps(typing: map<string, int>, user: string, at: int, now: int)
    requires now <= at + TYPING_STALE_AFTER
    ensures Expire(Seen(typing, user, at), user, now) == Seen(typing, user, at)
  {
  }

  /** Two `typing` events for "a" at 0 ms and 1000 ms: at 1400 ms no timer
      has fired and "a" is shown; the first timer (1500 ms) keeps it; the
      second timer (2500 ms) removes it, so it is gone by 2600 ms. */
  lemma TwoEventsScenario(typing: map<string, int>)
    ensures var t1 := Seen(Seen(typing, "a", 0), "a", 1000);
            && "a" in t1
            && "a" in Expire(t1, "a", 1500)
            && "a" !in Expire(Expire(t1, "a", 1500), "a", 2500)
  {
  }

  /** `presence{username}`: the status line gains " · <name> online" unless
      it already mentions the name. */
  function Announce(status: string, user: string): (r: string)
    ensures Contains(r, user)
    ensures |status| <= |r| && r[..|status|] == status
    ensures Contains(status, user) ==> r == status
    ensures !Contains(status, user) ==> r == status + " · " + user + " online"
  {
    if Contains(status, user) then status
    else
      ContainsSuffix(status + " · ", user, " online");
      status + " · " + user + " online"
  }

  /** Announcing the same user twice changes the status line once. */
  lemma AnnounceIdempotent(status: string, user: string)
    ensures Announce(Announce(status, user), user) == Announce(status, user)
  {
  }
}
