/**
Automatic pool selection: a fold over candidates that arrive in the arbitrary order of a hash map.
Both services keep the better of the best so far and the next valid quote.
*/
module Selection {
  import opened Wrappers
  import opened Slippage

  // ---- Folding with a strict total order ------------------------------------------------------

  ghost predicate TotalOn<T(!new)>(better: (T, T) -> bool, s: multiset<T>) {
    && (forall x, y :: x in s && y in s && x != y ==> (better(x, y) <==> !better(y, x)))
    && (forall x :: x in s ==> !better(x, x))
    && (forall x, y, z :: x in s && y in s && z in s && better(x, y) && better(y, z) ==> better(x, z))
  }

  function Keep<T>(better: (T, T) -> bool, best: Option<T>, offer: T): Option<T> {
    match best
    case None => Some(offer)
    case Some(b) => if better(offer, b) then Some(offer) else best
  }

  function Fold<T>(better: (T, T) -> bool, offers: seq<T>): Option<T> {
    if offers == [] then None
    else Keep(better, Fold(better, offers[..|offers| - 1]), offers[|offers| - 1])
  }

  /** `best` beats every other offer. */
  ghost predicate IsBest<T(!new)>(better: (T, T) -> bool, offers: multiset<T>, best: Option<T>) {
    match best
    case None => offers == multiset{}
    case Some(b) => b in offers && forall x :: x in offers && x != b ==> better(b, x)
  }

  lemma {:induction false} FoldIsBest<T(!new)>(better: (T, T) -> bool, offers: seq<T>)
    requires TotalOn(better, multiset(offers))
    ensures IsBest(better, multiset(offers), Fold(better, offers))
  {
    if offers != [] {
      var n := |offers| - 1;
      var front, last := offers[..n], offers[n];
      assert offers == front + [last];
      assert forall x :: x in multiset(offers) <==> x in multiset(front) || x == last;
      FoldIsBest(better, front);
    }
  }

  /** The fold's result depends only on which offers there are, not on their order. */
  lemma FoldOrderIndependent<T(!new)>(better: (T, T) -> bool, a: seq<T>, b: seq<T>)
    requires TotalOn(better, multiset(a)) && multiset(a) == multiset(b)
    ensures Fold(better, a) == Fold(better, b)
    ensures IsBest(better, multiset(a), Fold(better, a))
  {
    FoldIsBest(better, a);
    FoldIsBest(better, b);
    if a == [] {
      assert b == [] by {
        assert |multiset(b)| == 0;
      }
    } else {
      assert a[0] in multiset(a);
    }
  }

  // ---- Which candidates are offers ------------------------------------------------------------

  /** Candidates with a successful, non-zero quote, in order. */
  function Offers<C, T>(offer: C -> Option<T>, candidates: seq<C>): seq<T> {
    if candidates == [] then []
    else
      var front := Offers(offer, candidates[..|candidates| - 1]);
      match offer(candidates[|candidates| - 1])
      case None => front
      case Some(t) => front + [t]
  }

  lemma {:induction false} OffersConcat<C, T>(offer: C -> Option<T>, a: seq<C>, b: seq<C>)
    ensures Offers(offer, a + b) == Offers(offer, a) + Offers(offer, b)
  {
    if b == [] {
      assert a + b == a;
    } else {
      var n := |b| - 1;
      assert (a + b)[..|a + b| - 1] == a + b[..n];
      OffersConcat(offer, a, b[..n]);
    }
  }

  function AsMultiset<T(==)>(o: Option<T>): multiset<T> {
    match o
    case None => multiset{}
    case Some(t) => multiset{t}
  }

  lemma OffersAround<C, T>(offer: C -> Option<T>, s: seq<C>, i: nat)
    requires i < |s|
    ensures var a, b := s[..i], s[i + 1..];
            && Offers(offer, s) == Offers(offer, a) + (Offers(offer, [s[i]]) + Offers(offer, b))
            && Offers(offer, a + b) == Offers(offer, a) + Offers(offer, b)
  {
    var a, b := s[..i], s[i + 1..];
    OffersConcat(offer, a, b);
    OffersConcat(offer, a, [s[i]] + b);
    OffersConcat(offer, [s[i]], b);
    assert s == a + ([s[i]] + b);
  }

  /** Taking one candidate out takes its offer out. */
  lemma OffersWithout<C, T>(offer: C -> Option<T>, s: seq<C>, i: nat)
    requires i < |s|
    ensures multiset(Offers(offer, s)) == multiset(Offers(offer, s[..i] + s[i + 1..])) + AsMultiset(offer(s[i]))
  {
    OffersAround(offer, s, i);
    OffersOfOne(offer, s[i]);
    MiddleOut(Offers(offer, s[..i]), Offers(offer, [s[i]]), Offers(offer, s[i + 1..]));
  }

  lemma MiddleOut<T>(a: seq<T>, b: seq<T>, c: seq<T>)
    ensures multiset(a + (b + c)) == multiset(a + c) + multiset(b)
  {
  }

  lemma OffersOfOne<C, T>(offer: C -> Option<T>, c: C)
    ensures multiset(Offers(offer, [c])) == AsMultiset(offer(c))
  {
    assert [c][..0] == [];
  }

  lemma MultisetWithout<C>(s: seq<C>, i: nat)
    requires i < |s|
    ensures multiset(s[..i] + s[i + 1..]) == multiset(s) - multiset{s[i]}
  {
    assert s == s[..i] + [s[i]] + s[i + 1..];
  }

  function Without<C>(s: seq<C>, i: nat): (t: seq<C>)
    requires i < |s|
    ensures |t| == |s| - 1
  {
    s[..i] + s[i + 1..]
  }

  lemma OffersRejoin<C, T>(offer: C -> Option<T>, a: seq<C>, b: seq<C>, i: nat, j: nat)
    requires i < |a| && j < |b| && a[i] == b[j]
    requires multiset(Offers(offer, Without(a, i))) == multiset(Offers(offer, Without(b, j)))
    ensures multiset(Offers(offer, a)) == multiset(Offers(offer, b))
  {
    OffersWithout(offer, a, i);
    OffersWithout(offer, b, j);
  }

  lemma MultisetRemovesSame<C>(a: seq<C>, b: seq<C>, i: nat, j: nat)
    requires i < |a| && j < |b| && a[i] == b[j] && multiset(a) == multiset(b)
    ensures multiset(Without(a, i)) == multiset(Without(b, j))
  {
    MultisetWithout(a, i);
    MultisetWithout(b, j);
  }

  lemma SameHead<C>(a: seq<C>, b: seq<C>) returns (j: nat)
    requires a != [] && multiset(a) == multiset(b)
    ensures j < |b| && b[j] == a[0]
  {
    assert a[0] in multiset(b);
    j :| 0 <= j < |b| && b[j] == a[0];
  }

  /** Reordering the candidates reorders the offers. */
  lemma {:induction false} OffersPermute<C(!new), T>(offer: C -> Option<T>, a: seq<C>, b: seq<C>)
    requires multiset(a) == multiset(b)
    ensures multiset(Offers(offer, a)) == multiset(Offers(offer, b))
    decreases |a|
  {
    if a == [] {
      assert |multiset(b)| == 0;
    } else {
      var j := SameHead(a, b);
      MultisetRemovesSame(a, b, 0, j);
      OffersPermute(offer, Without(a, 0), Without(b, j));
      OffersRejoin(offer, a, b, 0, j);
    }
  }

  /** Permuted offers are equally many. */
  lemma SameSize<T>(x: seq<T>, y: seq<T>)
    requires multiset(x) == multiset(y)
    ensures |x| == |y|
  {
    assert |multiset(x)| == |x| && |multiset(y)| == |y|;
  }

  /** Every offer is some candidate's. */
  lemma {:induction false} OfferedBy<C, T>(offer: C -> Option<T>, candidates: seq<C>, t: T) returns (c: C)
    requires t in Offers(offer, candidates)
    ensures c in candidates && offer(c) == Some(t)
  {
    var n := |candidates| - 1;
    if offer(candidates[n]) == Some(t) {
      c := candidates[n];
    } else {
      c := OfferedBy(offer, candidates[..n], t);
    }
  }

  // ---- Balancer -----------------------------------------------------------------------------

  /** A discovered pool; `quote` is absent when the pool is unusable or its quote call fails. */
  datatype Pool = Pool(address: nat, quote: Option<nat>)

  datatype Offer = Offer(address: nat, amount: nat)

  function BalancerOffer(): Pool -> Option<Offer> {
    (p: Pool) => if p.quote.Some? && p.quote.value != 0 then Some(Offer(p.address, p.quote.value)) else None
  }

  function BalancerBetter(kind: SwapKind): (Offer, Offer) -> bool {
    (a: Offer, b: Offer) =>
      (if kind.ExactIn? then a.amount > b.amount else a.amount < b.amount)
      || (a.amount == b.amount && a.address < b.address)
  }

  predicate HasQuote(p: Pool) {
    p.quote.Some? && p.quote.value != 0
  }

  /** The positions of the pools with a quote. */
  function QuotedAt(candidates: seq<Pool>): set<int> {
    set i | 0 <= i < |candidates| && HasQuote(candidates[i])
  }

  lemma QuotedNext(candidates: seq<Pool>, n: nat)
    requires n < |candidates|
    ensures |QuotedAt(candidates[..n + 1])| == |QuotedAt(candidates[..n])| + if HasQuote(candidates[n]) then 1 else 0
  {
    var before, after := QuotedAt(candidates[..n]), QuotedAt(candidates[..n + 1]);
    if HasQuote(candidates[n]) {
      assert after == before + {n as int};
    } else {
      assert after == before;
    }
  }

  /** The offer is some candidate's, no candidate's price is better, and none with the same price has a lower
      address. */
  predicate BestPool(kind: SwapKind, candidates: seq<Pool>, best: Offer) {
    && (exists i :: 0 <= i < |candidates| && candidates[i] == Pool(best.address, Some(best.amount)))
    && best.amount > 0
    && forall i :: 0 <= i < |candidates| && HasQuote(candidates[i]) ==>
         && (kind.ExactIn? ==> candidates[i].quote.value <= best.amount)
         && (kind.ExactOut? ==> candidates[i].quote.value >= best.amount)
         && (candidates[i].quote.value == best.amount ==> best.address <= candidates[i].address)
  }

  lemma BestPoolKeeps(kind: SwapKind, candidates: seq<Pool>, n: nat, best: Offer)
    requires n < |candidates| && BestPool(kind, candidates[..n], best)
    requires HasQuote(candidates[n]) ==>
               && (kind.ExactIn? ==> candidates[n].quote.value <= best.amount)
               && (kind.ExactOut? ==> candidates[n].quote.value >= best.amount)
               && (candidates[n].quote.value == best.amount ==> best.address <= candidates[n].address)
    ensures BestPool(kind, candidates[..n + 1], best)
  {
    var i :| 0 <= i < n && candidates[..n][i] == Pool(best.address, Some(best.amount));
    assert candidates[..n + 1][i] == candidates[..n][i];
    assert forall k :: 0 <= k < n ==> candidates[..n + 1][k] == candidates[..n][k];
  }

  /** A candidate that beats the best so far, or the first with a quote. */
  lemma BestPoolChanges(kind: SwapKind, candidates: seq<Pool>, n: nat, best: Option<Offer>)
    requires n < |candidates| && HasQuote(candidates[n])
    requires best.None? ==> QuotedAt(candidates[..n]) == {}
    requires best.Some? ==>
               && BestPool(kind, candidates[..n], best.value)
               && var q := candidates[n].quote.value;
                  || (kind.ExactIn? && q > best.value.amount) || (kind.ExactOut? && q < best.value.amount)
                  || (q == best.value.amount && candidates[n].address < best.value.address)
    ensures BestPool(kind, candidates[..n + 1], Offer(candidates[n].address, candidates[n].quote.value))
  {
    assert candidates[..n + 1][n] == candidates[n];
    forall k | 0 <= k < n && HasQuote(candidates[..n + 1][k])
      ensures k in QuotedAt(candidates[..n]) && candidates[..n][k] == candidates[..n + 1][k]
    {
    }
  }

  lemma BalancerTotal(kind: SwapKind, s: multiset<Offer>)
    ensures TotalOn(BalancerBetter(kind), s)
  {
  }

  method SelectBestBalancerPool(kind: SwapKind, candidates: seq<Pool>) returns (best: Option<Offer>, quoted: nat)
    ensures best == Fold(BalancerBetter(kind), Offers(BalancerOffer(), candidates))
    ensures quoted == |Offers(BalancerOffer(), candidates)|
    ensures best.None? <==> forall i :: 0 <= i < |candidates| ==> !HasQuote(candidates[i])
    ensures best.Some? ==> BestPool(kind, candidates, best.value)
    ensures quoted == |QuotedAt(candidates)|
  {
    best, quoted := None, 0;
    for i := 0 to |candidates|
      invariant best.None? <==> QuotedAt(candidates[..i]) == {}
      invariant best.Some? ==> BestPool(kind, candidates[..i], best.value)
      invariant quoted == |QuotedAt(candidates[..i])|
      invariant best == Fold(BalancerBetter(kind), Offers(BalancerOffer(), candidates[..i]))
      invariant quoted == |Offers(BalancerOffer(), candidates[..i])|
    {
      assert candidates[..i + 1][..i] == candidates[..i];
      var candidate := candidates[i];
      QuotedNext(candidates, i);
      if candidate.quote.None? || candidate.quote.value == 0 {
        if best.Some? {
          BestPoolKeeps(kind, candidates, i, best.value);
        }
        continue;
      }
      var amount := candidate.quote.value;
      quoted := quoted + 1;
      var replace := true;
      if best.Some? {
        replace := match kind
          case ExactIn => amount > best.value.amount || (amount == best.value.amount && candidate.address < best.value.address)
          case ExactOut => amount < best.value.amount || (amount == best.value.amount && candidate.address < best.value.address);
      }
      ghost var front := Offers(BalancerOffer(), candidates[..i]);
      assert (front + [Offer(candidate.address, amount)])[..|front|] == front;
      if replace {
        BestPoolChanges(kind, candidates, i, best);
        best := Some(Offer(candidate.address, amount));
      } else {
        BestPoolKeeps(kind, candidates, i, best.value);
      }
    }
    assert candidates[..|candidates|] == candidates;
    assert forall i :: 0 <= i < |candidates| && HasQuote(candidates[i]) ==> i in QuotedAt(candidates);
  }

  /** The selected Balancer pool and the number of quotes do not depend on the order in which the hash
      map yields the candidates; the selected offer is the best price, lowest address first on ties. */
  lemma BalancerOrderIndependent(kind: SwapKind, a: seq<Pool>, b: seq<Pool>)
    requires multiset(a) == multiset(b)
    ensures var (x, y) := (Offers(BalancerOffer(), a), Offers(BalancerOffer(), b));
            && Fold(BalancerBetter(kind), x) == Fold(BalancerBetter(kind), y)
            && |x| == |y|
            && IsBest(BalancerBetter(kind), multiset(x), Fold(BalancerBetter(kind), x))
  {
    OffersPermute(BalancerOffer(), a, b);
    SameSize(Offers(BalancerOffer(), a), Offers(BalancerOffer(), b));
    BalancerTotal(kind, multiset(Offers(BalancerOffer(), a)));
    FoldOrderIndependent(BalancerBetter(kind), Offers(BalancerOffer(), a), Offers(BalancerOffer(), b));
  }

  // ---- Uniswap ------------------------------------------------------------------------------

  datatype PoolKey = PoolKey(currency0: nat, currency1: nat, fee: nat, tickSpacing: int, hooks: nat)

  /** A discovered key with its quoted amount and gas, when the pool is usable and the quote succeeds. */
  datatype Candidate = Candidate(key: PoolKey, quote: Option<(nat, nat)>)

  datatype KeyOffer = KeyOffer(key: PoolKey, amount: nat, gas: nat)

  function UniswapOffer(hooked: bool): Candidate -> Option<KeyOffer> {
    (c: Candidate) =>
      if (hooked || c.key.hooks == 0) && c.quote.Some? && c.quote.value.0 != 0
      then Some(KeyOffer(c.key, c.quote.value.0, c.quote.value.1)) else None
  }

  /** `quote_is_better` on two offers; `id` is the pool id, a hash of the key. */
  function UniswapBetter(kind: SwapKind, id: PoolKey -> nat): (KeyOffer, KeyOffer) -> bool {
    (a: KeyOffer, b: KeyOffer) =>
      || (if kind.ExactIn? then a.amount > b.amount else a.amount < b.amount)
      || (a.amount == b.amount && a.gas < b.gas)
      || (a.amount == b.amount && a.gas == b.gas && id(a.key) < id(b.key))
  }

  /** The candidate may be used and has a quote. */
  predicate Eligible(hooked: bool, c: Candidate) {
    (hooked || c.key.hooks == 0) && c.quote.Some? && c.quote.value.0 != 0
  }

  function EligibleAt(hooked: bool, discovered: seq<Candidate>): set<int> {
    set i | 0 <= i < |discovered| && Eligible(hooked, discovered[i])
  }

  lemma EligibleNext(hooked: bool, discovered: seq<Candidate>, n: nat)
    requires n < |discovered|
    ensures |EligibleAt(hooked, discovered[..n + 1])| ==
            |EligibleAt(hooked, discovered[..n])| + if Eligible(hooked, discovered[n]) then 1 else 0
  {
    var before, after := EligibleAt(hooked, discovered[..n]), EligibleAt(hooked, discovered[..n + 1]);
    if Eligible(hooked, discovered[n]) {
      assert after == before + {n as int};
    } else {
      assert after == before;
    }
  }

  /** No worse than the candidate: by price, then by gas, then by pool id. */
  predicate NoWorse(kind: SwapKind, id: PoolKey -> nat, best: KeyOffer, c: Candidate)
    requires c.quote.Some?
  {
    var (amount, gas) := c.quote.value;
    && (kind.ExactIn? ==> amount <= best.amount)
    && (kind.ExactOut? ==> amount >= best.amount)
    && (amount == best.amount ==> gas >= best.gas)
    && (amount == best.amount && gas == best.gas ==> id(c.key) >= id(best.key))
  }

  /** The offer is some eligible candidate's, and no worse than any. */
  predicate BestKey(kind: SwapKind, hooked: bool, id: PoolKey -> nat, discovered: seq<Candidate>, best: KeyOffer) {
    && (exists i :: 0 <= i < |discovered| && Eligible(hooked, discovered[i])
                    && discovered[i] == Candidate(best.key, Some((best.amount, best.gas))))
    && forall i :: 0 <= i < |discovered| && Eligible(hooked, discovered[i]) ==> NoWorse(kind, id, best, discovered[i])
  }

  lemma BestKeyKeeps(kind: SwapKind, hooked: bool, id: PoolKey -> nat, discovered: seq<Candidate>, n: nat, best: KeyOffer)
    requires n < |discovered| && BestKey(kind, hooked, id, discovered[..n], best)
    requires Eligible(hooked, discovered[n]) ==> NoWorse(kind, id, best, discovered[n])
    ensures BestKey(kind, hooked, id, discovered[..n + 1], best)
  {
    var i :| 0 <= i < n && Eligible(hooked, discovered[..n][i]) && discovered[..n][i] == Candidate(best.key, Some((best.amount, best.gas)));
    assert discovered[..n + 1][i] == discovered[..n][i];
    assert forall k :: 0 <= k < n ==> discovered[..n + 1][k] == discovered[..n][k];
  }

  lemma BestKeyChanges(kind: SwapKind, hooked: bool, id: PoolKey -> nat, discovered: seq<Candidate>, n: nat, best: Option<KeyOffer>)
    requires n < |discovered| && Eligible(hooked, discovered[n])
    requires best.None? ==> EligibleAt(hooked, discovered[..n]) == {}
    requires best.Some? ==> BestKey(kind, hooked, id, discovered[..n], best.value) && !NoWorse(kind, id, best.value, discovered[n])
    ensures BestKey(kind, hooked, id, discovered[..n + 1],
                    KeyOffer(discovered[n].key, discovered[n].quote.value.0, discovered[n].quote.value.1))
  {
    assert discovered[..n + 1][n] == discovered[n];
    forall k | 0 <= k < n && Eligible(hooked, discovered[..n + 1][k])
      ensures k in EligibleAt(hooked, discovered[..n]) && discovered[..n][k] == discovered[..n + 1][k]
    {
    }
  }

  /** Different keys among these have different ids. */
  ghost predicate DistinctIds(id: PoolKey -> nat, candidates: seq<Candidate>) {
    forall x, y :: x in candidates && y in candidates && id(x.key) == id(y.key) ==> x.key == y.key
  }

  lemma UniswapTotal(kind: SwapKind, hooked: bool, id: PoolKey -> nat, candidates: seq<Candidate>)
    requires DistinctIds(id, candidates)
    ensures TotalOn(UniswapBetter(kind, id), multiset(Offers(UniswapOffer(hooked), candidates)))
  {
    var s := multiset(Offers(UniswapOffer(hooked), candidates));
    forall x, y | x in s && y in s && x != y
      ensures UniswapBetter(kind, id)(x, y) <==> !UniswapBetter(kind, id)(y, x)
    {
      var c := OfferedBy(UniswapOffer(hooked), candidates, x);
      var d := OfferedBy(UniswapOffer(hooked), candidates, y);
      assert id(c.key) == id(d.key) ==> c.key == d.key;
    }
  }

  method SelectBestUniswapPool(kind: SwapKind, hooked: bool, id: PoolKey -> nat, discovered: seq<Candidate>)
    returns (best: Option<KeyOffer>, quoted: nat)
    ensures best == Fold(UniswapBetter(kind, id), Offers(UniswapOffer(hooked), discovered))
    ensures quoted == |Offers(UniswapOffer(hooked), discovered)|
    ensures best.None? <==> forall i :: 0 <= i < |discovered| ==> !Eligible(hooked, discovered[i])
    ensures best.Some? ==> BestKey(kind, hooked, id, discovered, best.value)
    ensures quoted == |EligibleAt(hooked, discovered)|
  {
    best, quoted := None, 0;
    for i := 0 to |discovered|
      invariant best.None? <==> EligibleAt(hooked, discovered[..i]) == {}
      invariant best.Some? ==> BestKey(kind, hooked, id, discovered[..i], best.value)
      invariant quoted == |EligibleAt(hooked, discovered[..i])|
      invariant best == Fold(UniswapBetter(kind, id), Offers(UniswapOffer(hooked), discovered[..i]))
      invariant quoted == |Offers(UniswapOffer(hooked), discovered[..i])|
    {
      assert discovered[..i + 1][..i] == discovered[..i];
      var c := discovered[i];
      EligibleNext(hooked, discovered, i);
      if best.Some? && (Eligible(hooked, c) ==> NoWorse(kind, id, best.value, c)) {
        BestKeyKeeps(kind, hooked, id, discovered, i, best.value);
      }
      if !hooked && c.key.hooks != 0 {
        continue;
      }
      if c.quote.None? || c.quote.value.0 == 0 {
        continue;
      }
      quoted := quoted + 1;
      var offer := KeyOffer(c.key, c.quote.value.0, c.quote.value.1);
      ghost var front := Offers(UniswapOffer(hooked), discovered[..i]);
      assert (front + [offer])[..|front|] == front;
      if best.None? || UniswapBetter(kind, id)(offer, best.value) {
        BestKeyChanges(kind, hooked, id, discovered, i, best);
        best := Some(offer);
      }
    }
    assert discovered[..|discovered|] == discovered;
    assert forall i :: 0 <= i < |discovered| && Eligible(hooked, discovered[i]) ==> i in EligibleAt(hooked, discovered);
  }

  /** The selected Uniswap pool and the number of quotes do not depend on the order of discovery, given
      that the ids of different keys differ. */
  lemma UniswapOrderIndependent(kind: SwapKind, hooked: bool, id: PoolKey -> nat, a: seq<Candidate>, b: seq<Candidate>)
    requires multiset(a) == multiset(b)
    requires DistinctIds(id, a)
    ensures var (x, y) := (Offers(UniswapOffer(hooked), a), Offers(UniswapOffer(hooked), b));
            && Fold(UniswapBetter(kind, id), x) == Fold(UniswapBetter(kind, id), y)
            && |x| == |y|
            && IsBest(UniswapBetter(kind, id), multiset(x), Fold(UniswapBetter(kind, id), x))
  {
    OffersPermute(UniswapOffer(hooked), a, b);
    SameSize(Offers(UniswapOffer(hooked), a), Offers(UniswapOffer(hooked), b));
    UniswapTotal(kind, hooked, id, a);
    FoldOrderIndependent(UniswapBetter(kind, id), Offers(UniswapOffer(hooked), a), Offers(UniswapOffer(hooked), b));
  }
}
