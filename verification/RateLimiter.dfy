/**
 The per-client request limiter: a table of counting windows that is swept at most once
 per window and never grows beyond a bound. It is compared with a plain limiter that
 keeps every window it ever opened.
 */
module RateLimiter {
  import opened Wrappers

  type Time = int
  // A client address, already reduced to the prefix that is limited.
  type Client = string

  const MAX_TRACKED := 50_000

  datatype Window = Window(started: Time, count: nat)

  datatype Config = Config(limit: int, window: Time)

  datatype Request = Request(client: Client, now: Time)

  /** lastSweep is None for the zero time, which any other time is more than a window after. */
  datatype Table = Table(clients: map<Client, Window>, lastSweep: Option<Time>)

  const EMPTY := Table(map[], None)

  predicate Expired(c: Config, w: Window, now: Time) {
    now - w.started >= c.window
  }

  predicate SweepIsDue(c: Config, t: Table, now: Time) {
    t.lastSweep.None? || now - t.lastSweep.value >= c.window
  }

  function Swept(c: Config, clients: map<Client, Window>, now: Time): map<Client, Window> {
    map k | k in clients && !Expired(c, clients[k], now) :: clients[k]
  }

  /** The window this request is counted in, with the request counted. */
  function Counted(c: Config, clients: map<Client, Window>, r: Request): Window {
    if r.client !in clients || Expired(c, clients[r.client], r.now) then Window(r.now, 1)
    else clients[r.client].(count := clients[r.client].count + 1)
  }

  function Admits(c: Config, w: Window): bool {
    w.count <= c.limit
  }

  function AfterSweep(c: Config, t: Table, now: Time): Table {
    if SweepIsDue(c, t, now) then Table(Swept(c, t.clients, now), Some(now)) else t
  }

  function Next(c: Config, t: Table, r: Request): Table {
    var t1 := AfterSweep(c, t, r.now);
    if r.client in t1.clients || |t1.clients| < MAX_TRACKED then
      t1.(clients := t1.clients[r.client := Counted(c, t1.clients, r)])
    else t1
  }

  function Answer(c: Config, t: Table, r: Request): bool {
    Admits(c, Counted(c, AfterSweep(c, t, r.now).clients, r))
  }

  class Limiter {
    const limit: int
    const window: Time
    var clients: map<Client, Window>
    var lastSweep: Option<Time>

    constructor (limit: int, window: Time)
      ensures Settings() == Config(limit, window) && Contents() == EMPTY
    {
      this.limit, this.window := limit, window;
      clients, lastSweep := map[], None;
    }

    ghost function Settings(): Config {
      Config(limit, window)
    }

    ghost function Contents(): Table
      reads this
    {
      Table(clients, lastSweep)
    }

    /** Deletes the expired windows one by one. */
    method Sweep(now: Time)
      modifies this`clients
      ensures clients == Swept(Settings(), old(clients), now)
      ensures forall k :: k in clients <==> k in old(clients) && now - old(clients)[k].started < window
      ensures forall k :: k in clients ==> clients[k] == old(clients)[k]
    {
      var rest := clients.Keys;
      while rest != {}
        invariant rest <= old(clients).Keys
        invariant clients.Keys <= old(clients).Keys
        invariant forall k :: k in old(clients) ==>
                    (k in clients <==> k in rest || !Expired(Settings(), old(clients)[k], now))
        invariant forall k :: k in clients ==> clients[k] == old(clients)[k]
      {
        var k :| k in rest;
        if now - clients[k].started >= window {
          clients := clients - {k};
        }
        rest := rest - {k};
      }
    }

    method Allow(client: Client, now: Time) returns (ok: bool)
      modifies this`clients, this`lastSweep
      ensures Contents() == Next(Settings(), old(Contents()), Request(client, now))
      ensures ok == Answer(Settings(), old(Contents()), Request(client, now))
    {
      if lastSweep.None? || now - lastSweep.value >= window {
        Sweep(now);
        lastSweep := Some(now);
      }
      var tracked := client in clients;
      var entry := Window(now, 0);
      if tracked && now - clients[client].started < window {
        entry := clients[client];
      }
      entry := entry.(count := entry.count + 1);
      if tracked || |clients| < MAX_TRACKED {
        clients := clients[client := entry];
      }
      return entry.count <= limit;
    }
  }

  /** One request by the numbers: whether it is admitted, and in which window its client is counted then. */
  lemma OneRequest(c: Config, t: Table, r: Request)
    ensures var live := r.client in t.clients && r.now - t.clients[r.client].started < c.window;
            var entry := if live then Window(t.clients[r.client].started, t.clients[r.client].count + 1)
                         else Window(r.now, 1);
            && (Answer(c, t, r) <==> entry.count <= c.limit)
            && (r.client in Next(c, t, r).clients ==> Next(c, t, r).clients[r.client] == entry)
  {
  }

  /** Which clients are tracked after a request, and that nobody else's window has changed. */
  lemma WhoIsTracked(c: Config, t: Table, r: Request)
    ensures var sweep := t.lastSweep.None? || r.now - t.lastSweep.value >= c.window;
            var kept := set k | k in t.clients && (sweep ==> r.now - t.clients[k].started < c.window);
            var t' := Next(c, t, r);
            && t'.lastSweep == (if sweep then Some(r.now) else t.lastSweep)
            && t'.clients.Keys == kept + (if r.client in kept || |kept| < 50_000 then {r.client} else {})
            && forall k :: k in t'.clients && k != r.client ==> t'.clients[k] == t.clients[k]
  {
    hide Counted;
    var t1 := AfterSweep(c, t, r.now);
    var sweep := t.lastSweep.None? || r.now - t.lastSweep.value >= c.window;
    var kept := set k | k in t.clients && (sweep ==> r.now - t.clients[k].started < c.window);
    assert t1.clients.Keys == kept && |t1.clients| == |t1.clients.Keys|;
  }

  // ---- runs ----

  /** The table after the first n requests. */
  function TableAt(c: Config, rs: seq<Request>, n: nat): Table
    requires n <= |rs|
  {
    if n == 0 then EMPTY else Next(c, TableAt(c, rs, n - 1), rs[n - 1])
  }

  /** The windows of a limiter that never sweeps and has no bound. */
  function PlainAt(c: Config, rs: seq<Request>, n: nat): map<Client, Window>
    requires n <= |rs|
  {
    if n == 0 then map[]
    else
      var before := PlainAt(c, rs, n - 1);
      before[rs[n - 1].client := Counted(c, before, rs[n - 1])]
  }

  function PlainAnswer(c: Config, clients: map<Client, Window>, r: Request): bool {
    Admits(c, Counted(c, clients, r))
  }

  predicate Ordered(rs: seq<Request>) {
    forall i, k :: 0 <= i < k < |rs| ==> rs[i].now <= rs[k].now
  }

  function Clients(rs: seq<Request>): set<Client> {
    set i | 0 <= i < |rs| :: rs[i].client
  }

  // ---- the bound ----

  lemma SweptIsSmaller(c: Config, clients: map<Client, Window>, now: Time)
    ensures |Swept(c, clients, now)| <= |clients|
  {
    FewerKeys(Swept(c, clients, now).Keys, clients.Keys);
    assert |Swept(c, clients, now)| == |Swept(c, clients, now).Keys|;
  }

  lemma {:induction false} FewerKeys<T>(a: set<T>, b: set<T>)
    requires a <= b
    ensures |a| <= |b|
  {
    if a != {} {
      var x :| x in a;
      FewerKeys(a - {x}, b - {x});
    }
  }

  /** Whatever the clock does and however many clients there are, the table stays within its bound. */
  lemma {:induction false} NeverTooManyTracked(c: Config, rs: seq<Request>, n: nat)
    requires n <= |rs|
    ensures |TableAt(c, rs, n).clients| <= MAX_TRACKED
  {
    if n > 0 {
      NeverTooManyTracked(c, rs, n - 1);
      SweptIsSmaller(c, TableAt(c, rs, n - 1).clients, rs[n - 1].now);
    }
  }

  // ---- sweeping changes no answer ----

  /** The swept table has lost nothing but windows that have expired by now. */
  ghost predicate Agrees(c: Config, swept: map<Client, Window>, plain: map<Client, Window>, now: Time) {
    && (forall k :: k in swept ==> k in plain && swept[k] == plain[k])
    && (forall k :: k in plain && k !in swept ==> Expired(c, plain[k], now))
  }

  lemma AgreeingCounts(c: Config, swept: map<Client, Window>, plain: map<Client, Window>, r: Request)
    requires Agrees(c, swept, plain, r.now)
    ensures Counted(c, swept, r) == Counted(c, plain, r)
    ensures Agrees(c, swept[r.client := Counted(c, swept, r)], plain[r.client := Counted(c, plain, r)], r.now)
  {
  }

  lemma SweepAgrees(c: Config, t: Table, plain: map<Client, Window>, now: Time)
    requires Agrees(c, t.clients, plain, now)
    ensures Agrees(c, AfterSweep(c, t, now).clients, plain, now)
    ensures AfterSweep(c, t, now).clients.Keys <= t.clients.Keys
  {
  }

  /** A client that is not tracked yet finds room in the table. */
  lemma RoomForAnother(tracked: map<Client, Window>, all: set<Client>, client: Client)
    requires tracked.Keys <= all && client in all && client !in tracked && |all| <= MAX_TRACKED
    ensures |tracked| < MAX_TRACKED
  {
    FewerKeys(tracked.Keys, all - {client});
    assert |tracked| == |tracked.Keys|;
  }

  lemma {:induction false} TableAgrees(c: Config, rs: seq<Request>, n: nat, now: Time)
    requires n <= |rs| && Ordered(rs) && |Clients(rs)| <= MAX_TRACKED
    requires n > 0 ==> rs[n - 1].now <= now
    ensures Agrees(c, TableAt(c, rs, n).clients, PlainAt(c, rs, n), now)
    ensures TableAt(c, rs, n).clients.Keys <= Clients(rs[..n])
  {
    if n > 0 {
      var r := rs[n - 1];
      TableAgrees(c, rs, n - 1, r.now);
      hide AfterSweep, Clients, Counted;
      var t, plain := TableAt(c, rs, n - 1), PlainAt(c, rs, n - 1);
      SweepAgrees(c, t, plain, r.now);
      var t1 := AfterSweep(c, t, r.now);
      AgreeingCounts(c, t1.clients, plain, r);
      ClientsGrow(rs, n);
      if r.client !in t1.clients { RoomForAnother(t1.clients, Clients(rs), r.client); }
    }
  }

  lemma ClientsGrow(rs: seq<Request>, n: nat)
    requires 0 < n <= |rs|
    ensures Clients(rs[..n - 1]) <= Clients(rs[..n]) <= Clients(rs)
    ensures rs[n - 1].client in Clients(rs[..n])
  {
    assert forall i :: 0 <= i < n - 1 ==> rs[..n - 1][i] == rs[..n][i];
    assert forall i :: 0 <= i < n ==> rs[..n][i] == rs[i];
  }

  /** With times that do not run backwards and at most 50 000 clients, sweeping changes no answer. */
  lemma SweepingChangesNoAnswer(c: Config, rs: seq<Request>, n: nat)
    requires n < |rs| && Ordered(rs) && |Clients(rs)| <= MAX_TRACKED
    ensures Answer(c, TableAt(c, rs, n), rs[n]) == PlainAnswer(c, PlainAt(c, rs, n), rs[n])
  {
    TableAgrees(c, rs, n, rs[n].now);
    SweepAgrees(c, TableAt(c, rs, n), PlainAt(c, rs, n), rs[n].now);
    var t1 := AfterSweep(c, TableAt(c, rs, n), rs[n].now);
    AgreeingCounts(c, t1.clients, PlainAt(c, rs, n), rs[n]);
  }

  // ---- how much one interval lets through ----

  /** How many requests of the client the plain limiter admits from the i-th up to, not including, the k-th. */
  function PlainAdmitted(c: Config, rs: seq<Request>, i: nat, k: nat, client: Client): nat
    requires i <= k <= |rs|
  {
    if i == k then 0
    else
      PlainAdmitted(c, rs, i, k - 1, client)
      + (if rs[k - 1].client == client && PlainAnswer(c, PlainAt(c, rs, k - 1), rs[k - 1]) then 1 else 0)
  }

  function Admitted(c: Config, rs: seq<Request>, i: nat, k: nat, client: Client): nat
    requires i <= k <= |rs|
  {
    if i == k then 0
    else
      Admitted(c, rs, i, k - 1, client)
      + (if rs[k - 1].client == client && Answer(c, TableAt(c, rs, k - 1), rs[k - 1]) then 1 else 0)
  }

  function Cap(c: Config): nat {
    if c.limit <= 0 then 0 else c.limit
  }

  /** As many of the count requests of one window as the limit lets through. */
  function Share(c: Config, count: nat): (share: nat)
    ensures share <= Cap(c)
  {
    if count <= Cap(c) then count else Cap(c)
  }

  /**
   Where the requests admitted since request i can come from. A window opened before request i
   and still open at its time, one opened at that very time, or one opened later: only the last
   can have another one before it, and never two.
   */
  lemma {:induction false} TwoWindows(c: Config, rs: seq<Request>, i: nat, k: nat, client: Client)
    requires 0 < c.window && i <= k <= |rs| && Ordered(rs) && i < |rs|
    requires i < k ==> rs[k - 1].now - rs[i].now <= c.window
    ensures var plain, admitted := PlainAt(c, rs, k), PlainAdmitted(c, rs, i, k, client);
            if client !in plain then admitted == 0
            else if plain[client].started < rs[i].now then
              admitted <= Share(c, plain[client].count) && (admitted == 0 || !Expired(c, plain[client], rs[i].now))
            else if plain[client].started == rs[i].now then admitted <= Share(c, plain[client].count)
            else admitted <= Cap(c) + Share(c, plain[client].count)
    decreases k - i
  {
    if i < k {
      TwoWindows(c, rs, i, k - 1, client);
    }
  }

  lemma {:induction false} SameAdmissions(c: Config, rs: seq<Request>, i: nat, k: nat, client: Client)
    requires i <= k <= |rs| && Ordered(rs) && |Clients(rs)| <= MAX_TRACKED
    ensures Admitted(c, rs, i, k, client) == PlainAdmitted(c, rs, i, k, client)
    decreases k - i
  {
    if i < k {
      SameAdmissions(c, rs, i, k - 1, client);
      SweepingChangesNoAnswer(c, rs, k - 1);
    }
  }

  /**
   Any stretch of requests no longer than one window admits at most twice the limit of one
   client, wherever the stretch begins, and sweeping does not change that.
   */
  lemma IntervalAdmitsTwiceTheLimit(c: Config, rs: seq<Request>, i: nat, k: nat, client: Client)
    requires 0 < c.window && i < k <= |rs| && Ordered(rs) && |Clients(rs)| <= MAX_TRACKED
    requires rs[k - 1].now - rs[i].now <= c.window
    ensures Admitted(c, rs, i, k, client) <= 2 * Cap(c)
  {
    TwoWindows(c, rs, i, k, client);
    SameAdmissions(c, rs, i, k, client);
  }

  /** As many requests as the limit at both ends of a stretch exactly one window long. */
  function Bursts(c: Config): seq<Request> {
    seq(2 * Cap(c), i => Request("a", if i < Cap(c) then 0 else c.window))
  }

  lemma {:induction false} BurstsPass(c: Config, n: nat)
    requires 0 < c.window && n <= 2 * Cap(c)
    ensures PlainAdmitted(c, Bursts(c), 0, n, "a") == n
    ensures PlainAt(c, Bursts(c), n)
         == if n == 0 then map[] else map["a" := if n <= Cap(c) then Window(0, n) else Window(c.window, n - Cap(c))]
  {
    if n > 0 { BurstsPass(c, n - 1); }
  }

  /** Twice is reached, for every limit and every window. */
  lemma TwiceIsReached(c: Config)
    requires 0 < c.window && 0 < c.limit
    ensures var rs := Bursts(c);
            && Ordered(rs) && |Clients(rs)| <= MAX_TRACKED && rs[|rs| - 1].now - rs[0].now == c.window
            && Admitted(c, rs, 0, |rs|, "a") == 2 * Cap(c)
  {
    BurstsPass(c, 2 * Cap(c));
    FewerKeys(Clients(Bursts(c)), {"a"});
    SameAdmissions(c, Bursts(c), 0, 2 * Cap(c), "a");
  }
}
