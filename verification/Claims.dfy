/** The dedupe set of one scope: the hashes of durable ingests, and the order in which
    they were claimed, which bounds the set. */
module Claims {

  const MAX_SEEN := 4096

  datatype SeenSet = SeenSet(hashes: set<string>, order: seq<string>)

  const NOTHING := SeenSet({}, [])

  function Elements<T>(s: seq<T>): set<T> { set x | x in s }

  /** Once the order list is too long its oldest part, a quarter and a bit, is forgotten. */
  function Bounded(m: SeenSet): SeenSet {
    if |m.order| > MAX_SEEN then
      var drop := |m.order| - MAX_SEEN + MAX_SEEN / 4;
      SeenSet(m.hashes - Elements(m.order[..drop]), m.order[drop..])
    else m
  }

  function Wins(m: SeenSet, h: string): bool { h !in m.hashes }

  function Claim(m: SeenSet, h: string): SeenSet {
    if Wins(m, h) then Bounded(SeenSet(m.hashes + {h}, m.order + [h])) else m
  }

  /** Releasing a claim leaves the hash in the order list. */
  function Unmark(m: SeenSet, h: string): SeenSet { m.(hashes := m.hashes - {h}) }

  /** The set is inside its order list, which is bounded. */
  ghost predicate SeenOk(m: SeenSet) {
    m.hashes <= Elements(m.order) && |m.order| <= 4096
  }

  lemma ClaimStaysBounded(m: SeenSet, h: string)
    requires SeenOk(m)
    ensures SeenOk(Claim(m, h)) && SeenOk(Unmark(m, h))
  {
    var all := m.order + [h];
    if Wins(m, h) && |all| > MAX_SEEN {
      var drop := |all| - MAX_SEEN + MAX_SEEN / 4;
      forall x | x in Claim(m, h).hashes ensures x in Elements(all[drop..]) {
        assert x in all;
        Split(all, drop, x);
      }
    } else {
      assert forall x :: x in m.order ==> x in all;
      assert h in all;
    }
  }

  lemma Split<T>(s: seq<T>, i: nat, x: T)
    requires i <= |s|
    ensures x in s <==> x in s[..i] || x in s[i..]
  {
    assert s == s[..i] + s[i..];
  }

  /** The part of the order list that a claim pushes out: nothing, or all but the last 3071. */
  function PushedOut(order: seq<string>): seq<string> { if |order| < 4096 then [] else order[..|order| - 3071] }

  /** What a claim does to the set: a hash in it changes nothing, another one comes in and what is
      pushed out goes.  So the hash claimed is in the set afterwards exactly unless it is among
      what its own claim pushes out, where a release has left it. */
  lemma ClaimedExactly(m: SeenSet, h: string)
    ensures h in m.hashes ==> Claim(m, h) == m
    ensures h !in m.hashes ==>
      && Claim(m, h).hashes == m.hashes + {h} - Elements(PushedOut(m.order))
      && Claim(m, h).order == (m.order + [h])[|PushedOut(m.order)|..]
    ensures h in Claim(m, h).hashes <==> h in m.hashes || h !in PushedOut(m.order)
  {
    if h !in m.hashes {
      var all := m.order + [h];
      if |all| > MAX_SEEN { assert all[..|all| - 3072] == PushedOut(m.order); }
    }
  }

  function ClaimMore(m: SeenSet, claims: seq<string>): SeenSet {
    if claims == [] then m else Claim(ClaimMore(m, claims[..|claims| - 1]), claims[|claims| - 1])
  }

  lemma {:induction false} ClaimsAdd(m: SeenSet, claims: seq<string>)
    requires |m.order| + |claims| <= 4096 && Distinct(claims) && forall c :: c in claims ==> c !in m.hashes
    ensures var m' := ClaimMore(m, claims); m'.order == m.order + claims && m'.hashes == m.hashes + Elements(claims)
  {
    if claims != [] {
      var init, h := claims[..|claims| - 1], claims[|claims| - 1];
      ClaimsAdd(m, init);
      ClaimedExactly(ClaimMore(m, init), h);
      assert claims == init + [h] && h !in init;
      assert m.order + claims == m.order + init + [h];
      assert Elements(claims) == Elements(init) + {h};
    }
  }

  /** It does happen: a claim released, 4095 others, and the same claim again.  It wins, and
      its hash is not in the set: the next claim for it wins too. */
  lemma ReclaimIsForgotten(h: string, others: seq<string>)
    requires |others| == 4095 && Distinct(others) && h !in others
    ensures var m := ClaimMore(Unmark(Claim(NOTHING, h), h), others);
      h !in m.hashes && h !in Claim(m, h).hashes
  {
    var m0 := Unmark(Claim(NOTHING, h), h);
    ClaimedExactly(NOTHING, h);
    assert m0 == SeenSet({}, [h]);
    ClaimsAdd(m0, others);
    var m := ClaimMore(m0, others);
    ClaimedExactly(m, h);
    assert PushedOut(m.order)[0] == h;
  }

  // Runs in which no claim is released

  function ClaimAll(claims: seq<string>): SeenSet {
    if claims == [] then NOTHING else Claim(ClaimAll(claims[..|claims| - 1]), claims[|claims| - 1])
  }

  /** The claims that won, in order. */
  function Winners(claims: seq<string>): seq<string> {
    if claims == [] then []
    else
      var before, h := claims[..|claims| - 1], claims[|claims| - 1];
      if Wins(ClaimAll(before), h) then Winners(before) + [h] else Winners(before)
  }

  ghost predicate Distinct<T>(s: seq<T>) { forall i, j :: 0 <= i < j < |s| ==> s[i] != s[j] }

  /** `m` holds exactly the most recent of `won`: all of them, or at least the last 3072. */
  ghost predicate Recent(m: SeenSet, won: seq<string>) {
    && |m.order| <= 4096 && |m.order| <= |won|
    && m.order == won[|won| - |m.order|..]
    && (|m.order| == |won| || |m.order| >= 3072)
    && Distinct(m.order) && m.hashes == Elements(m.order)
  }

  lemma KeptElements(all: seq<string>, drop: nat)
    requires Distinct(all) && drop <= |all|
    ensures Elements(all[drop..]) == Elements(all) - Elements(all[..drop])
  {
    forall x ensures x in all[drop..] <==> x in all && x !in all[..drop] {
      Split(all, drop, x);
    }
  }

  lemma DropOldest(all: seq<string>, hashes: set<string>, won: seq<string>)
    requires Distinct(all) && hashes == Elements(all) && |all| == MAX_SEEN + 1 <= |won| && all == won[|won| - |all|..]
    ensures Recent(Bounded(SeenSet(hashes, all)), won)
  {
    var drop := |all| - MAX_SEEN + MAX_SEEN / 4;
    KeptElements(all, drop);
    assert all[drop..] == won[|won| - (|all| - drop)..];
  }

  lemma Grow(order: seq<string>, won: seq<string>, h: string)
    requires Distinct(order) && h !in order && |order| <= |won| && order == won[|won| - |order|..]
    ensures Distinct(order + [h]) && Elements(order + [h]) == Elements(order) + {h}
    ensures order + [h] == (won + [h])[|won| + 1 - (|order| + 1)..]
  {
    forall x ensures x in order + [h] <==> x in order || x == h {}
  }

  lemma WinStaysRecent(m: SeenSet, won: seq<string>, h: string)
    requires Recent(m, won) && Wins(m, h)
    ensures Recent(Claim(m, h), won + [h])
  {
    Grow(m.order, won, h);
    if |m.order| + 1 > MAX_SEEN { DropOldest(m.order + [h], m.hashes + {h}, won + [h]); }
  }

  /** With no release, the set and its order list agree and are exactly the most recent
      winning claims, never fewer than the last 3072. */
  lemma {:induction false} SeenIsRecentWinners(claims: seq<string>)
    ensures Recent(ClaimAll(claims), Winners(claims))
    decreases |claims|
  {
    if claims != [] {
      var before, h := claims[..|claims| - 1], claims[|claims| - 1];
      SeenIsRecentWinners(before);
      if Wins(ClaimAll(before), h) { WinStaysRecent(ClaimAll(before), Winners(before), h); }
    }
  }

  // Concurrent ingests of one scope

  /** Claims in flight, rows stored, and whole-message claims held, counted by hash. */
  datatype Ledger = Ledger(seen: SeenSet, inFlight: multiset<string>, stored: multiset<string>, held: multiset<string>)

  const NEW_LEDGER := Ledger(NOTHING, multiset{}, multiset{}, multiset{})

  datatype Event =
    | Ingest(h: string)      // ClaimSeen by an ingest
    | Stored(h: string)      // its ProcessText succeeded
    | Released(h: string)    // its ProcessText failed and the claim is released
    | ClaimWhole(h: string)  // the assembled message of a stream is claimed

  predicate Possible(l: Ledger, e: Event) {
    e.Stored? || e.Released? ==> e.h in l.inFlight
  }

  function Next(l: Ledger, e: Event): Ledger
    requires Possible(l, e)
  {
    match e
    case Ingest(h) =>
      l.(seen := Claim(l.seen, h), inFlight := if Wins(l.seen, h) then l.inFlight + multiset{h} else l.inFlight)
    case Stored(h) => l.(inFlight := l.inFlight - multiset{h}, stored := l.stored + multiset{h})
    case Released(h) => l.(seen := Unmark(l.seen, h), inFlight := l.inFlight - multiset{h})
    case ClaimWhole(h) =>
      l.(seen := Claim(l.seen, h), held := if Wins(l.seen, h) then l.held + multiset{h} else l.held)
  }

  /** What each event does to the claims and rows of a hash: an ingest or a whole message not in
      the set gets a claim, one in the set gets none; a claim in flight becomes a row, or is gone. */
  lemma LedgerMoves(l: Ledger, e: Event)
    requires Possible(l, e)
    ensures var l', one := Next(l, e), multiset{e.h};
      match e
      case Ingest(h) =>
        l'.stored == l.stored && l'.held == l.held &&
        l'.inFlight == if h in l.seen.hashes then l.inFlight else l.inFlight + one
      case Stored(h) => l'.held == l.held && l'.inFlight + one == l.inFlight && l'.stored == l.stored + one
      case Released(h) =>
        l'.held == l.held && l'.inFlight + one == l.inFlight && l'.stored == l.stored &&
        l'.seen.hashes == l.seen.hashes - {h} && l'.seen.order == l.seen.order
      case ClaimWhole(h) =>
        l'.stored == l.stored && l'.inFlight == l.inFlight &&
        l'.held == if h in l.seen.hashes then l.held else l.held + one
  {
    ClaimedExactly(l.seen, e.h);
  }

  function Claimants(l: Ledger, h: string): nat { l.inFlight[h] + l.stored[h] + l.held[h] }

  /** A hash is in the set exactly when one claim for it is in flight, stored or held. */
  ghost predicate Exact(l: Ledger) {
    forall h :: Claimants(l, h) == if h in l.seen.hashes then 1 else 0
  }

  predicate Overflows(l: Ledger, e: Event) {
    (e.Ingest? || e.ClaimWhole?) && e.h !in l.seen.hashes && |l.seen.order| >= 4096
  }

  /** What an overflow drops: hashes that are in the set just before. */
  ghost predicate DropsClaim(l: Ledger, e: Event)
    requires Overflows(l, e)
  {
    exists x :: x in PushedOut(l.seen.order) && (x in l.seen.hashes || x == e.h)
  }

  /** Every event keeps the set exact, except an overflow that drops a live claim: then,
      and only then, a hash with a claim is forgotten. */
  lemma ExactUntilDropped(l: Ledger, e: Event)
    requires Exact(l) && Possible(l, e)
    ensures Exact(Next(l, e)) <==> !(Overflows(l, e) && DropsClaim(l, e))
  {
    var l' := Next(l, e);
    if Overflows(l, e) {
      ClaimedExactly(l.seen, e.h);
      assert Claimants(l, e.h) == 0;
      assert forall x :: x != e.h ==> Claimants(l', x) == Claimants(l, x);
      assert Claimants(l', e.h) == 1;
      if DropsClaim(l, e) {
        var x :| x in PushedOut(l.seen.order) && (x in l.seen.hashes || x == e.h);
        assert x !in l'.seen.hashes && Claimants(l', x) == 1;
      } else {
        assert l'.seen.hashes == l.seen.hashes + {e.h};
      }
    } else {
      forall h ensures Claimants(l', h) == if h in l'.seen.hashes then 1 else 0 {
        assert Claimants(l, h) == if h in l.seen.hashes then 1 else 0;
        assert Claimants(l, e.h) == if e.h in l.seen.hashes then 1 else 0;
      }
    }
  }

  datatype History = Begin | After(past: History, event: Event)

  ghost predicate HistoryOk(p: History, l: Ledger) {
    match p
    case Begin => l == NEW_LEDGER
    case After(past, e) =>
      exists l0 :: HistoryOk(past, l0) && Possible(l0, e) && !Overflows(l0, e) && l == Next(l0, e)
  }

  lemma {:induction false} HistoriesExact(p: History, l: Ledger)
    requires HistoryOk(p, l)
    ensures Exact(l)
  {
    if p.After? {
      var l0 :| HistoryOk(p.past, l0) && Possible(l0, p.event) && !Overflows(l0, p.event) && l == Next(l0, p.event);
      HistoriesExact(p.past, l0);
      ExactUntilDropped(l0, p.event);
    }
  }

  /** While the order list does not overflow, concurrent identical ingests store at most
      one row, and an ingest that failed can be claimed again. */
  lemma AtMostOneRow(p: History, l: Ledger, h: string)
    requires HistoryOk(p, l)
    ensures l.stored[h] <= 1
    ensures h in l.seen.hashes <==> Claimants(l, h) == 1
    ensures h in l.inFlight ==>
      h in Next(Next(l, Released(h)), Ingest(h)).inFlight && l.stored[h] == 0 && l.inFlight[h] == 1
  {
    HistoriesExact(p, l);
    assert Claimants(l, h) == if h in l.seen.hashes then 1 else 0;
  }
}
