/** Any sequence of requests with a clock that does not run backwards. */
module DhcpRuns {
  import opened Wrappers
  import opened Addresses
  import opened DhcpCodec
  import opened LeaseBook
  import opened DhcpHandler

  datatype Event = Event(req: Message, now: int)

  /** `books[i]` is the book before request `i`, and `answers[i]` its answer. */
  datatype Run = Run(n: Net, books: seq<Book>, events: seq<Event>, answers: seq<Answer>)

  ghost predicate Turn(r: Run, i: nat)
    requires ValidNet(r.n) && |r.books| == |r.events| + 1 && |r.answers| == |r.events| && i < |r.events|
  {
    (r.books[i + 1], r.answers[i]) == Decide(r.n, r.books[i], r.events[i].req, r.events[i].now)
  }

  ghost predicate IsRun(r: Run) {
    && ValidNet(r.n)
    && |r.books| == |r.events| + 1 && |r.answers| == |r.events|
    && Sane(r.n, r.books[0])
    && (forall i :: 0 <= i < |r.events| ==> Turn(r, i))
    && (forall i, j :: 0 <= i <= j < |r.events| ==> r.events[i].now <= r.events[j].now)
  }

  /** The two indexes stay inverses, and hold only addresses to hand out. */
  lemma {:induction false} AlwaysSane(r: Run, i: nat)
    requires IsRun(r) && i < |r.books|
    ensures Sane(r.n, r.books[i])
  {
    if i > 0 {
      var j := i - 1;
      AlwaysSane(r, j);
      RequestKeeps(r.n, r.books[j], r.events[j].req, r.events[j].now);
      assert Turn(r, j);
    }
  }

  lemma TurnEffect(r: Run, j: nat)
    requires IsRun(r) && j < |r.events|
    ensures Sane(r.n, r.books[j])
    ensures Effect(r.n, r.books[j], r.books[j + 1], r.events[j].req, r.answers[j], r.events[j].now)
  {
    AlwaysSane(r, j);
    RequestKeeps(r.n, r.books[j], r.events[j].req, r.events[j].now);
    assert Turn(r, j);
  }

  ghost predicate GrantsAt(r: Run, i: nat, c: Client, ip: Addr)
    requires IsRun(r) && i < |r.events|
  {
    ClientOf(r.events[i].req) == c && r.answers[i].Grant? && r.answers[i].ip == ip
  }

  ghost predicate GivesUpAt(r: Run, i: nat, c: Client)
    requires IsRun(r) && i < |r.events|
  {
    ClientOf(r.events[i].req) == c && GivesUp(r.n, r.books[i], r.events[i].req)
  }

  /** `m` is the last of the requests `i` .. `j - 1` to grant `ip` to `c`. */
  ghost predicate LastGrant(r: Run, i: nat, m: nat, j: nat, c: Client, ip: Addr)
    requires IsRun(r) && j <= |r.events|
  {
    i <= m < j && GrantsAt(r, m, c, ip) && forall l :: m < l < j ==> !GrantsAt(r, l, c, ip)
  }

  /** The expiry that request `m` gave `c`. */
  ghost function ExpiryAt(r: Run, m: nat, c: Client): int
    requires IsRun(r) && m + 1 < |r.books|
  {
    if c in r.books[m + 1].byClient then r.books[m + 1].byClient[c].expiry else 0
  }

  ghost predicate StillBound(r: Run, m: nat, j: nat, c: Client, ip: Addr)
    requires IsRun(r) && m + 1 < |r.books| && j < |r.books|
  {
    var b := r.books[j];
    c in b.byClient && b.byClient[c].ip == ip && b.byClient[c].expiry == ExpiryAt(r, m, c)
  }

  ghost predicate RunOut(r: Run, m: nat, j: nat, c: Client)
    requires IsRun(r) && m < j <= |r.events|
  {
    exists k :: m < k < j && r.events[k].now >= ExpiryAt(r, m, c)
  }

  lemma GrantBinds(r: Run, m: nat, c: Client, ip: Addr)
    requires IsRun(r) && m < |r.events| && GrantsAt(r, m, c, ip)
    ensures StillBound(r, m, m + 1, c, ip)
  {
    TurnEffect(r, m);
  }

  /** One more request, neither granting `ip` to `c` again nor giving it up. */
  lemma BoundStep(r: Run, m: nat, j: nat, c: Client, ip: Addr)
    requires IsRun(r) && m < j < |r.events| && StillBound(r, m, j, c, ip)
    requires !GrantsAt(r, j, c, ip) && !GivesUpAt(r, j, c)
    ensures StillBound(r, m, j + 1, c, ip) || r.events[j].now >= ExpiryAt(r, m, c)
  {
    TurnEffect(r, j);
  }

  lemma StandsStep(r: Run, i: nat, m: nat, p: nat, c: Client, ip: Addr) returns (m': nat)
    requires IsRun(r) && p < |r.events| && LastGrant(r, i, m, p, c, ip) && !GivesUpAt(r, p, c)
    requires StillBound(r, m, p, c, ip) || RunOut(r, m, p, c)
    ensures LastGrant(r, i, m', p + 1, c, ip)
    ensures StillBound(r, m', p + 1, c, ip) || RunOut(r, m', p + 1, c)
  {
    if GrantsAt(r, p, c, ip) {
      m' := p;
      GrantBinds(r, p, c, ip);
    } else {
      m' := m;
      if StillBound(r, m, p, c, ip) {
        BoundStep(r, m, p, c, ip);
      }
    }
  }

  /** A grant stands, at its latest expiry, until it runs out. */
  lemma {:induction false} GrantStands(r: Run, i: nat, j: nat, c: Client, ip: Addr) returns (m: nat)
    requires IsRun(r) && i < j <= |r.events| && GrantsAt(r, i, c, ip)
    requires forall k :: i < k < j ==> !GivesUpAt(r, k, c)
    ensures LastGrant(r, i, m, j, c, ip)
    ensures StillBound(r, m, j, c, ip) || RunOut(r, m, j, c)
    decreases j
  {
    if j == i + 1 {
      m := i;
      GrantBinds(r, m, c, ip);
    } else {
      var p := j - 1;
      m := GrantStands(r, i, p, c, ip);
      m := StandsStep(r, i, m, p, c, ip);
    }
  }

  /** No double allocation: an address granted to one client is granted to another only once the first
      has given it up, or once the last grant of it has run out. */
  lemma NoDoubleAllocation(r: Run, i: nat, j: nat, c: Client, d: Client, ip: Addr)
    requires IsRun(r) && i < j < |r.events| && c != d
    requires GrantsAt(r, i, c, ip) && GrantsAt(r, j, d, ip)
    ensures || (exists k :: i < k < j && GivesUpAt(r, k, c))
            || (exists m :: LastGrant(r, i, m, j, c, ip) && r.events[j].now >= ExpiryAt(r, m, c))
  {
    if forall k :: i < k < j ==> !GivesUpAt(r, k, c) {
      var m := GrantStands(r, i, j, c, ip);
      if StillBound(r, m, j, c, ip) {
        TurnEffect(r, j);
        assert r.books[j].byIP[ip] == c;
      }
      assert r.events[j].now >= ExpiryAt(r, m, c);
    }
  }

  /** Taking another server's offer counts as giving up: at that same instant the address can go to
      another client, though the offer has not run out and was neither released nor declined. */
  lemma FreedOfferIsRegranted(n: Net, b: Book, req: Message, next: Message, now: int)
    requires ValidNet(n) && Sane(n, b)
    requires IsType(req, REQUEST) && ServerID(req.options).Some? && ServerID(req.options) != Some(Server(n))
    requires ClientOf(req) in b.byClient && !b.byClient[ClientOf(req)].committed
    requires IsType(next, DISCOVER) && ClientOf(next) != ClientOf(req) && !Holds(b, ClientOf(next), now)
    requires RequestedIP(next.options) == Some(b.byClient[ClientOf(req)].ip)
    ensures var b1 := Decide(n, b, req, now).0;
            Decide(n, b1, next, now).1 == Grant(false, b.byClient[ClientOf(req)].ip)
  {
    var c, d := ClientOf(req), ClientOf(next);
    var ip := b.byClient[c].ip;
    assert ip in b.byIP;
    var b1 := Clear(b, c);
    ClearSane(n, b, c);
    OfferIs(n, b1, d, ip, now);
  }

  /** And once a grant has run out, another client asking for the address gets it. */
  lemma RunOutIsRegranted(n: Net, b: Book, c: Client, next: Message, now: int)
    requires ValidNet(n) && Sane(n, b) && c in b.byClient && Expired(b.byClient[c], now)
    requires IsType(next, DISCOVER) && ClientOf(next) != c && !Holds(b, ClientOf(next), now)
    requires RequestedIP(next.options) == Some(b.byClient[c].ip)
    ensures var (b', a) := Decide(n, b, next, now);
            && a == Grant(false, b.byClient[c].ip)
            && c !in b'.byClient && Bound(b', ClientOf(next), now) == Some(b.byClient[c].ip)
  {
    var d, ip := ClientOf(next), b.byClient[c].ip;
    assert ip in b.byIP;
    OfferRebinds(n, b, d, ip, now);
  }
}
