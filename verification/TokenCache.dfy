/** internal/provider/token.go: the token cache with one exchange in flight per key.

    Each function is one lock region of `copilotToken` or `invalidateAuth`. Exchanges are numbered in
    the order they begin; the number is bookkeeping that the program itself does not keep. */
module TokenCache {
  import opened Text

  /** A Copilot token and the exchange it came from. */
  datatype Entry = Entry(token: string, apiBase: string, expiresAt: int, fingerprint: string, source: nat)

  datatype Answer = Token(entry: Entry) | Error(reason: string) | Cancelled

  /** One exchange: the key it is for, the GitHub token's fingerprint, how often its channel was closed,
      and its result. */
  datatype Flight = Flight(key: string, fingerprint: string, closes: nat, answer: Option<Answer>)

  datatype Cache = Cache(entries: map<string, Entry>, inflight: map<string, nat>, flights: seq<Flight>)

  const EMPTY_CACHE := Cache(map[], map[], [])

  /** The cache key: the auth ID, or the fingerprint when there is none. */
  function KeyFor(authId: string, fingerprint: string): string {
    if Trim(authId) == "" then fingerprint else Trim(authId)
  }

  datatype Verdict = Hit(entry: Entry) | Join(flight: nat) | Lead(flight: nat)

  predicate Usable(e: Entry, fingerprint: string, now: int, buffer: int) {
    e.fingerprint == fingerprint && e.expiresAt > now + buffer
  }

  /** The first lock region: use a cached token, follow a running exchange, or begin one. */
  function Enter(c: Cache, key: string, fingerprint: string, now: int, buffer: int): (Cache, Verdict) {
    if key in c.entries && Usable(c.entries[key], fingerprint, now, buffer) then (c, Hit(c.entries[key]))
    else if key in c.inflight then (c, Join(c.inflight[key]))
    else (c.(inflight := c.inflight[key := |c.flights|], flights := c.flights + [Flight(key, fingerprint, 0, None)]),
          Lead(|c.flights|))
  }

  /** The second lock region: record the result, cache a token, take the flight down and wake followers. */
  function Publish(c: Cache, key: string, f: nat, answer: Answer): Cache
    requires f < |c.flights|
  {
    c.(flights := c.flights[f := c.flights[f].(closes := c.flights[f].closes + 1, answer := Some(answer))],
       entries := if answer.Token? then c.entries[key := answer.entry] else c.entries,
       inflight := c.inflight - {key})
  }

  /** `invalidateAuth`. */
  function Invalidate(c: Cache, authId: string): Cache {
    if Trim(authId) == "" then c else c.(entries := c.entries - {Trim(authId)})
  }

  /** `Shutdown` forgets the tokens and leaves running exchanges alone. */
  function Clear(c: Cache): Cache {
    c.(entries := map[])
  }

  // ---- The shared state ----

  /** `tokenFlight`: the result, and the channel its followers wait on. */
  class TokenFlight {
    ghost const id: nat
    ghost const key: string
    ghost const fingerprint: string
    var closes: nat
    var answer: Option<Answer>

    constructor (ghost id: nat, ghost key: string, ghost fingerprint: string)
      ensures this.id == id && Value() == Flight(key, fingerprint, 0, None)
    {
      this.id, this.key, this.fingerprint := id, key, fingerprint;
      closes, answer := 0, None;
    }

    ghost function Value(): Flight
      reads this
    {
      Flight(key, fingerprint, closes, answer)
    }
  }

  class SharedCache {
    var entries: map<string, Entry>
    var inflight: map<string, TokenFlight>
    ghost var flights: seq<TokenFlight>

    ghost predicate Valid()
      reads this, flights
    {
      && (forall k :: k in inflight ==> inflight[k] in flights)
      && (forall i :: 0 <= i < |flights| ==> flights[i].id == i)
    }

    ghost function Contents(): Cache
      reads this, flights
    {
      var all := flights;
      Cache(entries, map k | k in inflight :: inflight[k].id,
            seq(|all|, i requires 0 <= i < |all| reads all => all[i].Value()))
    }

    constructor ()
      ensures Valid() && Contents() == EMPTY_CACHE
    {
      entries, inflight, flights := map[], map[], [];
    }

    /** Either a cached token, or a flight to follow, or a new flight to lead. */
    method EnterRegion(key: string, fingerprint: string, now: int, buffer: int)
      returns (hit: Option<Entry>, flight: TokenFlight?, leads: bool)
      requires Valid()
      modifies this
      ensures Valid()
      ensures var (c, v) := Enter(old(Contents()), key, fingerprint, now, buffer);
              && Contents() == c
              && (hit.Some? <==> v.Hit?) && (hit.Some? ==> hit.value == v.entry && flight == null)
              && (hit.None? ==> flight != null && flight in flights && leads == v.Lead? && flight.id == v.flight)
    {
      if key in entries && entries[key].fingerprint == fingerprint && entries[key].expiresAt > now + buffer {
        return Some(entries[key]), null, false;
      }
      if key in inflight {
        return None, inflight[key], false;
      }
      var f := new TokenFlight(|flights|, key, fingerprint);
      inflight := inflight[key := f];
      flights := flights + [f];
      return None, f, true;
    }

    method PublishRegion(key: string, flight: TokenFlight, answer: Answer)
      requires Valid() && flight in flights
      modifies this, flight
      ensures Valid() && flights == old(flights)
      ensures Contents() == Publish(old(Contents()), key, flight.id, answer)
    {
      ghost var was := Contents();
      assert flight.id < |flights| && flights[flight.id] == flight;
      flight.answer := Some(answer);
      if answer.Token? {
        entries := entries[key := answer.entry];
      }
      inflight := inflight - {key};
      flight.closes := flight.closes + 1;
      ghost var now := Contents();
      forall i | 0 <= i < |flights|
        ensures now.flights[i] == if i == flight.id then flight.Value() else was.flights[i]
      {
      }
      assert now.flights == was.flights[flight.id := flight.Value()];
      assert now.inflight == was.inflight - {key};
    }

    method InvalidateRegion(authId: string)
      requires Valid()
      modifies `entries
      ensures Valid() && Contents() == Invalidate(old(Contents()), authId)
    {
      var id := Trim(authId);
      if id != "" {
        entries := entries - {id};
      }
    }

    method ClearRegion()
      requires Valid()
      modifies `entries
      ensures Valid() && Contents() == Clear(old(Contents()))
    {
      entries := map[];
    }
  }
}
