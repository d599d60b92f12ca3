/** The bookkeeping half of crates/chia-inspect-core/src/inspect.rs: the coin
    references of the summary, the per-puzzle-hash net delta, the fee, the
    bound on how many spends are analysed, the canonical orders of the
    summary lists, and the two helpers that append condition records while a
    spend is analysed. */
module Summary {
  import opened Wrappers
  import opened Json
  import opened Hex
  import opened Ordering

  const U64Max: int := 0xFFFF_FFFF_FFFF_FFFF
  const U128Bound: int := 0x1_0000_0000_0000_0000_0000_0000_0000_0000

  type u64 = x: int | 0 <= x <= U64Max
  type u128 = x: int | 0 <= x < U128Bound

  /** The link the condition helpers give for every signature they record. */
  const ConditionsDoc: string := "https://chialisp.com/conditions/"

  /** A coin as the consensus code holds it: raw bytes and an amount. */
  datatype Coin = Coin(parentCoinInfo: seq<byte>, puzzleHash: seq<byte>, amount: u64)

  /** A coin as the report shows it: hex strings and an amount. */
  datatype CoinRef = CoinRef(coinId: string, parentCoinId: string, puzzleHash: string, amount: u64)

  /** One entry of `net_xch_delta_by_puzzle_hash`. */
  datatype NetDelta = NetDelta(puzzleHash: string, deltaMojos: int)

  /** A required signature: public key and message, both as prefixed hex. */
  datatype AggSigInfo = AggSigInfo(pubkey: string, msg: string)

  /** A decoded condition of a spend; the helpers below never set `raw`. */
  datatype ConditionInfo = ConditionInfo(opcode: string, args: seq<Value>, raw: Option<string>)

  /** A (public key bytes, message bytes) pair reported by the executor. */
  type SigPair = (seq<byte>, seq<byte>)

  /** What the report's summary holds. */
  datatype SpendSummary = SpendSummary(
    removals: seq<CoinRef>,
    additions: seq<CoinRef>,
    feeMojos: u64,
    netDelta: seq<NetDelta>,
    aggSigMe: seq<AggSigInfo>,
    aggSigUnsafe: seq<AggSigInfo>)

  /** A string is a field as `encode_hex_prefixed` writes it: "0x" and lower-case digits. */
  predicate IsPrefixedHex(s: string)
  {
    |s| >= 2 && s[..2] == "0x" && IsLowerHex(s[2..])
  }

  /** `coin_ref_from_coin`. The coin id is a SHA-256 hash over the coin, which
      the model takes as the parameter `coinId`. */
  function CoinRefFromCoin(coin: Coin, coinId: Coin -> seq<byte>): CoinRef
  {
    CoinRef(EncodeHexPrefixed(coinId(coin)), EncodeHexPrefixed(coin.parentCoinInfo),
            EncodeHexPrefixed(coin.puzzleHash), coin.amount)
  }

  /** Every hex field of a coin reference is prefixed lower-case hex and
      decodes back to the bytes it was made from; the amount is copied. */
  lemma CoinRefFromCoinDecodes(coin: Coin, coinId: Coin -> seq<byte>)
    ensures DecodeHex(CoinRefFromCoin(coin, coinId).coinId) == Ok(coinId(coin))
    ensures DecodeHex(CoinRefFromCoin(coin, coinId).parentCoinId) == Ok(coin.parentCoinInfo)
    ensures DecodeHex(CoinRefFromCoin(coin, coinId).puzzleHash) == Ok(coin.puzzleHash)
    ensures IsPrefixedHex(CoinRefFromCoin(coin, coinId).coinId)
    ensures IsPrefixedHex(CoinRefFromCoin(coin, coinId).parentCoinId)
    ensures IsPrefixedHex(CoinRefFromCoin(coin, coinId).puzzleHash)
    ensures CoinRefFromCoin(coin, coinId).amount == coin.amount
  {
    DecodeEncodeRoundTrip(coinId(coin));
    DecodeEncodeRoundTrip(coin.parentCoinInfo);
    DecodeEncodeRoundTrip(coin.puzzleHash);
  }

  /** The `AggSigInfo` of a (public key, message) pair: both as prefixed hex. */
  function AggSigInfoOf(p: SigPair): AggSigInfo
  {
    AggSigInfo(EncodeHexPrefixed(p.0), EncodeHexPrefixed(p.1))
  }

  /** Both strings of an `AggSigInfo` decode back to the pair's bytes. */
  lemma AggSigInfoOfDecodes(p: SigPair)
    ensures DecodeHex(AggSigInfoOf(p).pubkey) == Ok(p.0)
    ensures DecodeHex(AggSigInfoOf(p).msg) == Ok(p.1)
  {
    DecodeEncodeRoundTrip(p.0);
    DecodeEncodeRoundTrip(p.1);
  }

  // ---------------------------------------------------------------------
  // Net delta per puzzle hash
  // ---------------------------------------------------------------------

  /** The total amount of the coins in `coins` locked to puzzle hash `h`. */
  function AmountTo(coins: seq<CoinRef>, h: string): int
  {
    if coins == [] then 0
    else
      var last := coins[|coins| - 1];
      AmountTo(coins[..|coins| - 1], h) + (if last.puzzleHash == h then last.amount else 0)
  }

  /** The distinct puzzle hashes of `coins`. */
  function PuzzleHashes(coins: seq<CoinRef>): set<string>
  {
    set c | c in coins :: c.puzzleHash
  }

  function DeltaHashes(deltas: seq<NetDelta>): set<string>
  {
    set d | d in deltas :: d.puzzleHash
  }

  lemma AmountToStep(coins: seq<CoinRef>, i: nat, h: string)
    requires i < |coins|
    ensures AmountTo(coins[..i + 1], h) == AmountTo(coins[..i], h) + (if coins[i].puzzleHash == h then coins[i].amount else 0)
    ensures PuzzleHashes(coins[..i + 1]) == PuzzleHashes(coins[..i]) + {coins[i].puzzleHash}
  {
    assert coins[..i + 1][..i] == coins[..i];
    assert coins[..i + 1] == coins[..i] + [coins[i]];
  }

  /** A puzzle hash no coin is locked to receives nothing. */
  lemma {:induction false} AmountToAbsent(coins: seq<CoinRef>, h: string)
    requires h !in PuzzleHashes(coins)
    ensures AmountTo(coins, h) == 0
  {
    if coins != [] {
      var init := coins[..|coins| - 1];
      assert coins == init + [coins[|coins| - 1]];
      assert PuzzleHashes(init) <= PuzzleHashes(coins);
      AmountToAbsent(init, h);
    }
  }

  lemma {:induction false} AmountToConcat(s: seq<CoinRef>, t: seq<CoinRef>, h: string)
    ensures AmountTo(s + t, h) == AmountTo(s, h) + AmountTo(t, h)
  {
    if t != [] {
      var init := t[..|t| - 1];
      assert (s + t)[..|s + t| - 1] == s + init;
      assert (s + t)[|s + t| - 1] == t[|t| - 1];
      var f := if t[|t| - 1].puzzleHash == h then t[|t| - 1].amount else 0;
      assert AmountTo(s + t, h) == AmountTo(s + init, h) + f;
      assert AmountTo(t, h) == AmountTo(init, h) + f;
      AmountToConcat(s, init, h);
    } else {
      assert s + t == s;
    }
  }

  /** Taking one coin out of a list lowers its hash's total by its amount. */
  lemma AmountToRemove(t: seq<CoinRef>, k: nat, h: string)
    requires k < |t|
    ensures AmountTo(t, h) == AmountTo(t[..k] + t[k + 1..], h) + (if t[k].puzzleHash == h then t[k].amount else 0)
  {
    assert t == (t[..k] + [t[k]]) + t[k + 1..];
    AmountToConcat(t[..k] + [t[k]], t[k + 1..], h);
    AmountToConcat(t[..k], [t[k]], h);
    AmountToConcat(t[..k], t[k + 1..], h);
    assert [t[k]][..0] == [];
  }

  /** Removing the same element from two permutations of each other leaves
      permutations of each other. */
  lemma RemoveFromPermutation<T>(s: seq<T>, t: seq<T>, k: nat)
    requires multiset(s) == multiset(t) && s != [] && k < |t| && t[k] == s[|s| - 1]
    ensures multiset(s[..|s| - 1]) == multiset(t[..k] + t[k + 1..])
  {
    var init := s[..|s| - 1];
    var x := s[|s| - 1];
    var t' := t[..k] + t[k + 1..];
    assert s == init + [x];
    assert t == t[..k] + [x] + t[k + 1..];
    forall y ensures multiset(init)[y] == multiset(t')[y] {
      assert multiset(s)[y] == multiset(init)[y] + multiset{x}[y];
      assert multiset(t)[y] == multiset(t[..k])[y] + multiset{x}[y] + multiset(t[k + 1..])[y];
      assert multiset(t')[y] == multiset(t[..k])[y] + multiset(t[k + 1..])[y];
    }
    assert multiset(init) == multiset(t');
  }

  /** The per-hash totals depend on the coins, not on their order: sorting
      the removals or additions leaves every total as it was. */
  lemma {:induction false} AmountToPermutation(s: seq<CoinRef>, t: seq<CoinRef>, h: string)
    requires multiset(s) == multiset(t)
    ensures AmountTo(s, h) == AmountTo(t, h)
    decreases |s|
  {
    if s != [] {
      var x := s[|s| - 1];
      assert x in t by {
        assert x in multiset(s);
      }
      var k :| 0 <= k < |t| && t[k] == x;
      RemoveFromPermutation(s, t, k);
      AmountToPermutation(s[..|s| - 1], t[..k] + t[k + 1..], h);
      AmountToRemove(t, k, h);
    } else {
      assert |t| == |multiset(t)|;
    }
  }

  lemma PuzzleHashesPermutation(s: seq<CoinRef>, t: seq<CoinRef>)
    requires multiset(s) == multiset(t)
    ensures PuzzleHashes(s) == PuzzleHashes(t)
  {
    forall h | h in PuzzleHashes(s) ensures h in PuzzleHashes(t) {
      var c :| c in s && c.puzzleHash == h;
      assert c in multiset(t);
    }
    forall h | h in PuzzleHashes(t) ensures h in PuzzleHashes(s) {
      var c :| c in t && c.puzzleHash == h;
      assert c in multiset(s);
    }
  }

  /** The running totals after the removals `coins[..i]` are subtracted. */
  ghost predicate RemovalTotals(totals: map<string, int>, coins: seq<CoinRef>, i: nat)
    requires i <= |coins|
  {
    && totals.Keys == PuzzleHashes(coins[..i])
    && forall h :: h in totals ==> totals[h] == 0 - AmountTo(coins[..i], h)
  }

  /** The running totals after all removals and the additions `coins[..i]`. */
  ghost predicate AdditionTotals(totals: map<string, int>, removals: seq<CoinRef>, coins: seq<CoinRef>, i: nat)
    requires i <= |coins|
  {
    && totals.Keys == PuzzleHashes(removals) + PuzzleHashes(coins[..i])
    && forall h :: h in totals ==> totals[h] == AmountTo(coins[..i], h) - AmountTo(removals, h)
  }

  /** The entry update of the first loop keeps `RemovalTotals`. */
  lemma RemovalStep(totals: map<string, int>, coins: seq<CoinRef>, i: nat)
    requires i < |coins| && RemovalTotals(totals, coins, i)
    ensures var c := coins[i];
            RemovalTotals(totals[c.puzzleHash := (if c.puzzleHash in totals then totals[c.puzzleHash] else 0) - c.amount], coins, i + 1)
  {
    var c := coins[i];
    if c.puzzleHash !in totals {
      AmountToAbsent(coins[..i], c.puzzleHash);
    }
    forall h ensures AmountTo(coins[..i + 1], h) == AmountTo(coins[..i], h) + (if c.puzzleHash == h then c.amount else 0) {
      AmountToStep(coins, i, h);
    }
    AmountToStep(coins, i, c.puzzleHash);
  }

  /** The entry update of the second loop keeps `AdditionTotals`. */
  lemma AdditionStep(totals: map<string, int>, removals: seq<CoinRef>, coins: seq<CoinRef>, i: nat)
    requires i < |coins| && AdditionTotals(totals, removals, coins, i)
    ensures var c := coins[i];
            AdditionTotals(totals[c.puzzleHash := (if c.puzzleHash in totals then totals[c.puzzleHash] else 0) + c.amount], removals, coins, i + 1)
  {
    var c := coins[i];
    if c.puzzleHash !in totals {
      AmountToAbsent(removals, c.puzzleHash);
      AmountToAbsent(coins[..i], c.puzzleHash);
    }
    forall h ensures AmountTo(coins[..i + 1], h) == AmountTo(coins[..i], h) + (if c.puzzleHash == h then c.amount else 0) {
      AmountToStep(coins, i, h);
    }
    AmountToStep(coins, i, c.puzzleHash);
  }

  /** `compute_net_delta`: one entry per distinct puzzle hash of the removals
      and additions, in ascending hash order, each holding the amount the
      additions lock to that hash minus the amount the removals spend from it. */
  method ComputeNetDelta(removals: seq<CoinRef>, additions: seq<CoinRef>) returns (deltas: seq<NetDelta>)
    ensures forall i, j :: 0 <= i < j < |deltas| ==> StrLess(deltas[i].puzzleHash, deltas[j].puzzleHash)
    ensures DeltaHashes(deltas) == PuzzleHashes(removals) + PuzzleHashes(additions)
    ensures forall d :: d in deltas ==>
              d.deltaMojos == AmountTo(additions, d.puzzleHash) - AmountTo(removals, d.puzzleHash)
  {
    var totals: map<string, int> := map[];
    for i := 0 to |removals|
      invariant RemovalTotals(totals, removals, i)
    {
      var c := removals[i];
      RemovalStep(totals, removals, i);
      var before := if c.puzzleHash in totals then totals[c.puzzleHash] else 0;
      totals := totals[c.puzzleHash := before - c.amount];
    }
    assert removals[..|removals|] == removals;
    assert additions[..0] == [];
    for i := 0 to |additions|
      invariant AdditionTotals(totals, removals, additions, i)
    {
      var c := additions[i];
      AdditionStep(totals, removals, additions, i);
      var before := if c.puzzleHash in totals then totals[c.puzzleHash] else 0;
      totals := totals[c.puzzleHash := before + c.amount];
    }
    assert additions[..|additions|] == additions;
    deltas := EntriesInKeyOrder(totals);
  }

  /** Draining a `BTreeMap<String, i128>` into `NetDelta`s: one entry per key,
      in ascending key order, carrying that key's value. */
  method EntriesInKeyOrder(totals: map<string, int>) returns (deltas: seq<NetDelta>)
    ensures forall i, j :: 0 <= i < j < |deltas| ==> StrLess(deltas[i].puzzleHash, deltas[j].puzzleHash)
    ensures DeltaHashes(deltas) == totals.Keys
    ensures forall d :: d in deltas ==> d.puzzleHash in totals && d.deltaMojos == totals[d.puzzleHash]
  {
    var hashes := SortedStrings(totals.Keys);
    deltas := seq(|hashes|, k requires 0 <= k < |hashes| => NetDelta(hashes[k], totals[hashes[k]]));
    forall h | h in totals.Keys ensures h in DeltaHashes(deltas) {
      var k :| 0 <= k < |hashes| && hashes[k] == h;
      assert deltas[k] in deltas;
    }
    forall h | h in DeltaHashes(deltas) ensures h in totals.Keys {
      var d :| d in deltas && d.puzzleHash == h;
      var k :| 0 <= k < |deltas| && deltas[k] == d;
      assert hashes[k] in hashes;
    }
  }

  // ---------------------------------------------------------------------
  // Fee and spend count
  // ---------------------------------------------------------------------

  /** `fee_mojos`: the 128-bit removal amount minus the addition amount,
      saturating at zero, converted to 64 bits with `u64::MAX` when it does
      not fit. */
  function FeeMojos(removalAmount: u128, additionAmount: u128): (fee: u64)
  {
    var surplus := if removalAmount <= additionAmount then 0 else removalAmount - additionAmount;
    if surplus <= U64Max then surplus else U64Max
  }

  /** The fee is exactly what the spend leaves unclaimed when that fits in 64
      bits; it is zero when the outputs claim at least the inputs; it never
      exceeds what is left unclaimed; and it is pinned at `u64::MAX` only when
      the true fee is larger. */
  lemma FeeMojosMeaning(removalAmount: u128, additionAmount: u128)
    ensures removalAmount <= additionAmount ==> FeeMojos(removalAmount, additionAmount) == 0
    ensures additionAmount <= removalAmount <= additionAmount + U64Max ==>
              FeeMojos(removalAmount, additionAmount) + additionAmount == removalAmount
    ensures additionAmount + FeeMojos(removalAmount, additionAmount) <= removalAmount
            || FeeMojos(removalAmount, additionAmount) == 0
    ensures FeeMojos(removalAmount, additionAmount) == U64Max <==> removalAmount - additionAmount >= U64Max
  {
  }

  function Min(a: nat, b: nat): (m: nat)
    ensures m <= a && m <= b && (m == a || m == b)
  {
    if a <= b then a else b
  }

  // ---------------------------------------------------------------------
  // Canonical orders of the summary lists
  // ---------------------------------------------------------------------

  /** The comparator of `removals`/`additions`: by coin id, as `Ord` on `String`. */
  predicate CoinIdLe(a: CoinRef, b: CoinRef)
  {
    !StrLess(b.coinId, a.coinId)
  }

  /** The comparator of `agg_sig_me`/`agg_sig_unsafe`: by public key, then message. */
  predicate AggSigLe(a: AggSigInfo, b: AggSigInfo)
  {
    StrLess(a.pubkey, b.pubkey) || (a.pubkey == b.pubkey && !StrLess(b.msg, a.msg))
  }

  /** Comparing coin ids is a valid `sort_by` comparator. */
  lemma CoinIdLeIsTotalPreorder()
    ensures TotalPreorder(CoinIdLe)
  {
    forall a: CoinRef, b: CoinRef ensures CoinIdLe(a, b) || CoinIdLe(b, a) {
      if StrLess(a.coinId, b.coinId) && StrLess(b.coinId, a.coinId) {
        StrLessTransitive(a.coinId, b.coinId, a.coinId);
        StrLessIrreflexive(a.coinId);
      }
    }
    forall a: CoinRef, b: CoinRef, c: CoinRef | CoinIdLe(a, b) && CoinIdLe(b, c)
      ensures CoinIdLe(a, c)
    {
      NotLessTransitive(a.coinId, b.coinId, c.coinId);
    }
  }

  /** "Not after" on strings is transitive. */
  lemma NotLessTransitive(x: string, y: string, z: string)
    requires !StrLess(y, x) && !StrLess(z, y)
    ensures !StrLess(z, x)
  {
    if StrLess(z, x) {
      if x == y {
      } else if y == z {
      } else {
        StrLessTotal(x, y);
        StrLessTotal(y, z);
        StrLessTransitive(x, y, z);
        StrLessTransitive(z, x, y);
      }
    }
  }

  /** Comparing by key then message is a valid `sort_by` comparator. */
  lemma AggSigLeIsTotalPreorder()
    ensures TotalPreorder(AggSigLe)
  {
    forall a: AggSigInfo, b: AggSigInfo ensures AggSigLe(a, b) || AggSigLe(b, a) {
      if a.pubkey != b.pubkey {
        StrLessTotal(a.pubkey, b.pubkey);
      } else if StrLess(a.msg, b.msg) && StrLess(b.msg, a.msg) {
        StrLessTransitive(a.msg, b.msg, a.msg);
        StrLessIrreflexive(a.msg);
      }
    }
    forall a: AggSigInfo, b: AggSigInfo, c: AggSigInfo | AggSigLe(a, b) && AggSigLe(b, c)
      ensures AggSigLe(a, c)
    {
      if a.pubkey == b.pubkey && b.pubkey == c.pubkey {
        StrLessIrreflexive(a.pubkey);
        NotLessTransitive(a.msg, b.msg, c.msg);
      } else if a.pubkey == b.pubkey {
      } else if b.pubkey == c.pubkey {
      } else {
        StrLessTransitive(a.pubkey, b.pubkey, c.pubkey);
      }
    }
  }

  // ---------------------------------------------------------------------
  // build_success_output
  // ---------------------------------------------------------------------

  /** What the executor reports for one spend and the analysis derives from
      it: the coins the spend creates, as coin references, and the
      AGG_SIG_ME pairs it requires. */
  datatype OwnedSpend = OwnedSpend(additions: seq<CoinRef>, aggSigMe: seq<SigPair>)

  function RemovalsOf(coins: seq<Coin>, coinId: Coin -> seq<byte>): (r: seq<CoinRef>)
    ensures |r| == |coins|
    ensures forall i :: 0 <= i < |coins| ==> r[i] == CoinRefFromCoin(coins[i], coinId)
  {
    seq(|coins|, i requires 0 <= i < |coins| => CoinRefFromCoin(coins[i], coinId))
  }

  /** The additions the first spends contribute, in spend order. */
  function CollectedAdditions(spends: seq<OwnedSpend>): seq<CoinRef>
  {
    if spends == [] then []
    else CollectedAdditions(spends[..|spends| - 1]) + spends[|spends| - 1].additions
  }

  /** The AGG_SIG_ME signatures the first spends contribute, in spend order. */
  function CollectedAggSigMe(spends: seq<OwnedSpend>): seq<AggSigInfo>
  {
    if spends == [] then []
    else CollectedAggSigMe(spends[..|spends| - 1]) + AggSigInfos(spends[|spends| - 1].aggSigMe)
  }

  function AggSigInfos(pairs: seq<SigPair>): (r: seq<AggSigInfo>)
    ensures |r| == |pairs|
    ensures forall i :: 0 <= i < |pairs| ==> r[i] == AggSigInfoOf(pairs[i])
  {
    seq(|pairs|, i requires 0 <= i < |pairs| => AggSigInfoOf(pairs[i]))
  }

  /** The loop of `build_success_output`: visits the first
      min(#coin spends, #executor spends) spends in order; each adds its coin
      to the removals and its created coins and AGG_SIG_ME signatures to the
      additions and signatures. */
  method CollectSpends(coins: seq<Coin>, owned: seq<OwnedSpend>, coinId: Coin -> seq<byte>)
    returns (removals: seq<CoinRef>, additions: seq<CoinRef>, aggSigMe: seq<AggSigInfo>)
    ensures |removals| == Min(|coins|, |owned|)
    ensures removals == RemovalsOf(coins[..Min(|coins|, |owned|)], coinId)
    ensures additions == CollectedAdditions(owned[..Min(|coins|, |owned|)])
    ensures aggSigMe == CollectedAggSigMe(owned[..Min(|coins|, |owned|)])
  {
    var spendCount := Min(|coins|, |owned|);
    removals, additions, aggSigMe := [], [], [];
    for idx := 0 to spendCount
      invariant removals == RemovalsOf(coins[..idx], coinId)
      invariant additions == CollectedAdditions(owned[..idx])
      invariant aggSigMe == CollectedAggSigMe(owned[..idx])
    {
      aggSigMe := aggSigMe + AggSigInfos(owned[idx].aggSigMe);
      removals := removals + [CoinRefFromCoin(coins[idx], coinId)];
      additions := additions + owned[idx].additions;
      assert owned[..idx + 1][..idx] == owned[..idx];
    }
  }

  /** The signatures `build_success_output` collects from the executor's
      AGG_SIG_UNSAFE list, in the order it reports them. */
  method CollectAggSigUnsafe(pairs: seq<SigPair>) returns (infos: seq<AggSigInfo>)
    ensures infos == AggSigInfos(pairs)
  {
    infos := [];
    for k := 0 to |pairs|
      invariant infos == AggSigInfos(pairs[..k])
    {
      infos := infos + [AggSigInfoOf(pairs[k])];
    }
    assert pairs[..|pairs|] == pairs;
  }

  /** The summary part of `build_success_output`: the collected lists sorted
      into their canonical orders (and otherwise unchanged), the fee, and the
      net delta of the sorted lists. */
  method BuildSummary(coins: seq<Coin>, owned: seq<OwnedSpend>, aggSigUnsafe: seq<SigPair>,
                      removalAmount: u128, additionAmount: u128, coinId: Coin -> seq<byte>)
    returns (s: SpendSummary)
    ensures |s.removals| == Min(|coins|, |owned|)
    ensures SortedBy(s.removals, CoinIdLe)
    ensures multiset(s.removals) == multiset(RemovalsOf(coins[..Min(|coins|, |owned|)], coinId))
    ensures SortedBy(s.additions, CoinIdLe)
    ensures multiset(s.additions) == multiset(CollectedAdditions(owned[..Min(|coins|, |owned|)]))
    ensures SortedBy(s.aggSigMe, AggSigLe)
    ensures multiset(s.aggSigMe) == multiset(CollectedAggSigMe(owned[..Min(|coins|, |owned|)]))
    ensures SortedBy(s.aggSigUnsafe, AggSigLe)
    ensures multiset(s.aggSigUnsafe) == multiset(AggSigInfos(aggSigUnsafe))
    ensures s.feeMojos == FeeMojos(removalAmount, additionAmount)
    ensures forall i, j :: 0 <= i < j < |s.netDelta| ==> StrLess(s.netDelta[i].puzzleHash, s.netDelta[j].puzzleHash)
    ensures DeltaHashes(s.netDelta) == PuzzleHashes(s.removals) + PuzzleHashes(s.additions)
    ensures forall d :: d in s.netDelta ==>
              d.deltaMojos == AmountTo(s.additions, d.puzzleHash) - AmountTo(s.removals, d.puzzleHash)
  {
    var removals, additions, aggSigMe := CollectSpends(coins, owned, coinId);
    var unsafeInfos := CollectAggSigUnsafe(aggSigUnsafe);
    CoinIdLeIsTotalPreorder();
    AggSigLeIsTotalPreorder();
    removals := SortBy(removals, CoinIdLe);
    additions := SortBy(additions, CoinIdLe);
    aggSigMe := SortBy(aggSigMe, AggSigLe);
    unsafeInfos := SortBy(unsafeInfos, AggSigLe);
    var fee := FeeMojos(removalAmount, additionAmount);
    var netDelta := ComputeNetDelta(removals, additions);
    s := SpendSummary(removals, additions, fee, netDelta, aggSigMe, unsafeInfos);
  }

  /** The net delta of a summary does not depend on the order in which the
      coins were collected: it equals the per-hash totals over the coins as
      the spends produced them. */
  lemma NetDeltaOrderIndependent(removals: seq<CoinRef>, sortedRemovals: seq<CoinRef>,
                                 additions: seq<CoinRef>, sortedAdditions: seq<CoinRef>, h: string)
    requires multiset(sortedRemovals) == multiset(removals)
    requires multiset(sortedAdditions) == multiset(additions)
    ensures AmountTo(sortedAdditions, h) - AmountTo(sortedRemovals, h) == AmountTo(additions, h) - AmountTo(removals, h)
    ensures PuzzleHashes(sortedRemovals) + PuzzleHashes(sortedAdditions) == PuzzleHashes(removals) + PuzzleHashes(additions)
  {
    AmountToPermutation(sortedRemovals, removals, h);
    AmountToPermutation(sortedAdditions, additions, h);
    PuzzleHashesPermutation(sortedRemovals, removals);
    PuzzleHashesPermutation(sortedAdditions, additions);
  }

  // ---------------------------------------------------------------------
  // Condition records appended while a spend is analysed
  // ---------------------------------------------------------------------

  /** The condition records `add_signature_conditions` appends for `pairs`. */
  function SignatureConditions(pairs: seq<SigPair>, opcode: string): (r: seq<ConditionInfo>)
    ensures |r| == |pairs|
    ensures forall i :: 0 <= i < |pairs| ==>
              r[i] == ConditionInfo(opcode, [String(AggSigInfoOf(pairs[i]).pubkey), String(AggSigInfoOf(pairs[i]).msg)], None)
  {
    seq(|pairs|, i requires 0 <= i < |pairs| =>
      ConditionInfo(opcode, [String(AggSigInfoOf(pairs[i]).pubkey), String(AggSigInfoOf(pairs[i]).msg)], None))
  }

  /** The explanation entry for one required signature. */
  function SignatureNote(p: SigPair, opcode: string): Value
  {
    var a := AggSigInfoOf(p);
    Object(map["kind" := String(opcode), "pubkey" := String(a.pubkey),
               "message" := String(a.msg), "doc" := String(ConditionsDoc)])
  }

  function SignatureNotes(pairs: seq<SigPair>, opcode: string): (r: seq<Value>)
    ensures |r| == |pairs|
    ensures forall i :: 0 <= i < |pairs| ==> r[i] == SignatureNote(pairs[i], opcode)
  {
    seq(|pairs|, i requires 0 <= i < |pairs| => SignatureNote(pairs[i], opcode))
  }

  /** The condition record and the explanation entry of `add_optional_assertion`:
      one of each for a present value, none for an absent one. */
  function AssertionConditions(opcode: string, value: Option<u64>): (r: seq<ConditionInfo>)
    ensures |r| == (if value.Some? then 1 else 0)
    ensures value.Some? ==> r[0].opcode == opcode && r[0].args == [Number(value.value)]
  {
    match value
    case None => []
    case Some(v) => [ConditionInfo(opcode, [Number(v)], None)]
  }

  function AssertionConstraints(opcode: string, value: Option<u64>): (r: seq<Value>)
    ensures |r| == (if value.Some? then 1 else 0)
    ensures value.Some? ==> r[0] == Object(map["kind" := String(opcode), "value" := Number(value.value)])
  {
    match value
    case None => []
    case Some(v) => [Object(map["kind" := String(opcode), "value" := Number(v)])]
  }

  /** Each signature condition carries the pair it was made from: it has the
      helper's opcode and its two arguments decode to the public key and the
      message. */
  lemma SignatureConditionDecodes(pairs: seq<SigPair>, opcode: string, i: nat)
    requires i < |pairs|
    ensures SignatureConditions(pairs, opcode)[i].opcode == opcode
    ensures DecodeHex(SignatureConditions(pairs, opcode)[i].args[0].s) == Ok(pairs[i].0)
    ensures DecodeHex(SignatureConditions(pairs, opcode)[i].args[1].s) == Ok(pairs[i].1)
  {
    var a := AggSigInfoOf(pairs[i]);
    AggSigInfoOfDecodes(pairs[i]);
    var c := SignatureConditions(pairs, opcode)[i];
    assert c.args[0].s == a.pubkey && c.args[1].s == a.msg;
  }

  /** The three records made for one pair agree: the explanation entry and the
      collected `AggSigInfo` repeat the condition's two argument strings. */
  lemma SignatureRecordsAgree(pairs: seq<SigPair>, opcode: string, i: nat)
    requires i < |pairs|
    ensures SignatureNotes(pairs, opcode)[i].fields["pubkey"] == SignatureConditions(pairs, opcode)[i].args[0]
    ensures SignatureNotes(pairs, opcode)[i].fields["message"] == SignatureConditions(pairs, opcode)[i].args[1]
    ensures SignatureNotes(pairs, opcode)[i].fields["kind"] == String(opcode)
    ensures AggSigInfos(pairs)[i].pubkey == SignatureConditions(pairs, opcode)[i].args[0].s
    ensures AggSigInfos(pairs)[i].msg == SignatureConditions(pairs, opcode)[i].args[1].s
  {
    var a := AggSigInfoOf(pairs[i]);
    var c := SignatureConditions(pairs, opcode)[i];
    assert c.args == [String(a.pubkey), String(a.msg)];
    var n := SignatureNotes(pairs, opcode)[i];
    assert n == SignatureNote(pairs[i], opcode);
  }

  lemma SignatureStep(pairs: seq<SigPair>, opcode: string, i: nat)
    requires i < |pairs|
    ensures SignatureConditions(pairs[..i + 1], opcode) == SignatureConditions(pairs[..i], opcode)
              + [ConditionInfo(opcode, [String(AggSigInfoOf(pairs[i]).pubkey), String(AggSigInfoOf(pairs[i]).msg)], None)]
    ensures SignatureNotes(pairs[..i + 1], opcode) == SignatureNotes(pairs[..i], opcode) + [SignatureNote(pairs[i], opcode)]
    ensures AggSigInfos(pairs[..i + 1]) == AggSigInfos(pairs[..i]) + [AggSigInfoOf(pairs[i])]
  {
  }

  /** The mutable state a spend's analysis appends to: its condition list and
      the two explanation lists the helpers touch. */
  class SpendRecords {
    var conditions: seq<ConditionInfo>
    var enforcedSignatures: seq<Value>
    var constraints: seq<Value>

    constructor ()
      ensures conditions == [] && enforcedSignatures == [] && constraints == []
    {
      conditions := [];
      enforcedSignatures := [];
      constraints := [];
    }

    /** `add_signature_conditions`: for each pair in order, one condition
        record, one explanation entry and one `AggSigInfo` on `aggSigOut`. */
    method AddSignatureConditions(pairs: seq<SigPair>, opcode: string, aggSigOut: AggSigList)
      modifies this, aggSigOut
      ensures conditions == old(conditions) + SignatureConditions(pairs, opcode)
      ensures enforcedSignatures == old(enforcedSignatures) + SignatureNotes(pairs, opcode)
      ensures constraints == old(constraints)
      ensures aggSigOut.items == old(aggSigOut.items) + AggSigInfos(pairs)
    {
      for i := 0 to |pairs|
        invariant conditions == old(conditions) + SignatureConditions(pairs[..i], opcode)
        invariant enforcedSignatures == old(enforcedSignatures) + SignatureNotes(pairs[..i], opcode)
        invariant constraints == old(constraints)
        invariant aggSigOut.items == old(aggSigOut.items) + AggSigInfos(pairs[..i])
      {
        var a := AggSigInfoOf(pairs[i]);
        conditions := conditions + [ConditionInfo(opcode, [String(a.pubkey), String(a.msg)], None)];
        enforcedSignatures := enforcedSignatures + [SignatureNote(pairs[i], opcode)];
        aggSigOut.Push(a);
        SignatureStep(pairs, opcode, i);
      }
      assert pairs[..|pairs|] == pairs;
    }

    /** `add_optional_assertion`: a present value adds one condition record
        and one constraint entry; an absent one changes nothing. */
    method AddOptionalAssertion(opcode: string, value: Option<u64>)
      modifies this
      ensures conditions == old(conditions) + AssertionConditions(opcode, value)
      ensures constraints == old(constraints) + AssertionConstraints(opcode, value)
      ensures enforcedSignatures == old(enforcedSignatures)
    {
      if value.Some? {
        var v := value.value;
        conditions := conditions + [ConditionInfo(opcode, [Number(v)], None)];
        constraints := constraints + [Object(map["kind" := String(opcode), "value" := Number(v)])];
      }
    }
  }

  /** A `Vec<AggSigInfo>` the signature helper appends to. */
  class AggSigList {
    var items: seq<AggSigInfo>

    constructor ()
      ensures items == []
    {
      items := [];
    }

    method Push(a: AggSigInfo)
      modifies this
      ensures items == old(items) + [a]
    {
      items := items + [a];
    }
  }
}
